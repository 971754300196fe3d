/** The bulk edit dialog (`components/BulkEditModal.tsx`): a check box per field enables
    it, the pending values are kept in an update map, and saving hands that map on. */
module BulkEdit {
  import opened Wrappers
  import opened Types

  /** The three job fields the dialog can set. */
  datatype BulkField = StatusField | DeliveryDateField | PlatingTypeIdField

  /** A `Partial<Job>` restricted to those fields. */
  type Updates = map<BulkField, string>

  /** `{ ...job, ...updates }`: each field in the map takes its value, every other field
      stays. */
  function ApplyUpdates(job: Job, updates: Updates): (r: Job)
    ensures r.status == (if StatusField in updates then updates[StatusField] else job.status)
    ensures r.deliveryDate == (if DeliveryDateField in updates then updates[DeliveryDateField] else job.deliveryDate)
    ensures r.platingTypeId == (if PlatingTypeIdField in updates then updates[PlatingTypeIdField] else job.platingTypeId)
    ensures r == job.(status := r.status, deliveryDate := r.deliveryDate, platingTypeId := r.platingTypeId)
  {
    var j1 := if StatusField in updates then job.(status := updates[StatusField]) else job;
    var j2 := if DeliveryDateField in updates then j1.(deliveryDate := updates[DeliveryDateField]) else j1;
    if PlatingTypeIdField in updates then j2.(platingTypeId := updates[PlatingTypeIdField]) else j2
  }

  /** An empty update map changes nothing. */
  lemma ApplyNoUpdates(job: Job)
    ensures ApplyUpdates(job, map[]) == job
  {
  }

  /** The value a field of a job has. */
  function FieldOf(job: Job, f: BulkField): string
  {
    match f
    case StatusField => job.status
    case DeliveryDateField => job.deliveryDate
    case PlatingTypeIdField => job.platingTypeId
  }

  /** `handleChange` as written: the chosen value is stored even when it is the empty
      value of the "(変更なし)" (no change) option. */
  function ChangedAsWritten(updates: Updates, f: BulkField, value: string): (r: Updates)
    ensures f in r && r[f] == value
    ensures forall g :: g != f ==> (g in r <==> g in updates)
    ensures forall g :: g != f && g in updates ==> r[g] == updates[g]
  {
    updates[f := value]
  }

  /** Choosing "(変更なし)" for an enabled field as written blanks that field in every
      job the update reaches. */
  lemma NoChangeOptionBlanksField(job: Job, f: BulkField)
    ensures FieldOf(ApplyUpdates(job, ChangedAsWritten(map[], f, "")), f) == ""
    ensures |ChangedAsWritten(map[], f, "")| == 1
  {
  }

  /** `handleChange` as the "(変更なし)" option means it: the empty value takes the field
      out of the update map, any other value sets that key alone. */
  function Changed(updates: Updates, f: BulkField, value: string): (r: Updates)
    ensures value != "" ==> r == updates[f := value]
    ensures value == "" ==> f !in r && forall g :: g != f ==> (g in r <==> g in updates)
    ensures forall g :: g != f && g in updates ==> g in r && r[g] == updates[g]
  {
    if value == "" then updates - {f} else updates[f := value]
  }

  /** With the corrected handler the "(変更なし)" option leaves that field of every job as
      it was, and other fields as the rest of the map says. */
  lemma NoChangeOptionKeepsField(job: Job, updates: Updates, f: BulkField)
    ensures FieldOf(ApplyUpdates(job, Changed(updates, f, "")), f) == FieldOf(job, f)
    ensures forall g :: g != f ==>
              FieldOf(ApplyUpdates(job, Changed(updates, f, "")), g) == FieldOf(ApplyUpdates(job, updates), g)
  {
  }

  /** The outcome of pressing save: the map handed to `onSave` (if any) and whether the
      dialog closes. */
  datatype SaveOutcome = SaveOutcome(saved: Option<Updates>, closed: bool)

  class BulkEditForm {
    var updates: Updates
    var enabledFields: map<BulkField, bool>

    /** A field absent from `enabledFields` is disabled. */
    function Enabled(f: BulkField): bool
      reads this
    {
      f in enabledFields && enabledFields[f]
    }

    constructor ()
      ensures updates == map[] && enabledFields == map[]
    {
      updates := map[];
      enabledFields := map[];
    }

    /** `handleToggleField`: flips that field's check box; disabling drops its pending
        value. */
    method ToggleField(f: BulkField)
      modifies this
      ensures enabledFields == old(enabledFields)[f := !old(Enabled(f))]
      ensures updates == if Enabled(f) then old(updates) else old(updates) - {f}
    {
      var next := enabledFields[f := !Enabled(f)];
      enabledFields := next;
      if !next[f] {
        updates := updates - {f};
      }
    }

    /** `handleChange`, as written: the value is stored whether or not the field is
        enabled (a disabled input only ignores the mouse), and the "(変更なし)" option
        stores the empty value. */
    method Change(f: BulkField, value: string)
      modifies this
      ensures updates == ChangedAsWritten(old(updates), f, value) && enabledFields == old(enabledFields)
    {
      updates := ChangedAsWritten(updates, f, value);
    }

    /** `handleSave`: an empty map just closes; otherwise a confirmed save hands the map
        on unchanged and closes, and a declined one keeps the dialog open. */
    method Save(confirmed: bool) returns (r: SaveOutcome)
      ensures |updates| == 0 ==> r == SaveOutcome(None, true)
      ensures |updates| > 0 && confirmed ==> r == SaveOutcome(Some(updates), true)
      ensures |updates| > 0 && !confirmed ==> r == SaveOutcome(None, false)
    {
      if |updates| == 0 {
        return SaveOutcome(None, true);
      }
      if confirmed {
        return SaveOutcome(Some(updates), true);
      }
      return SaveOutcome(None, false);
    }
  }

  /** Toggling a field twice restores its check box, and leaves it without a pending
      value. */
  method ToggleTwice(form: BulkEditForm, f: BulkField)
    modifies form
    ensures form.Enabled(f) == old(form.Enabled(f)) && form.updates == old(form.updates) - {f}
  {
    form.ToggleField(f);
    form.ToggleField(f);
  }
}
