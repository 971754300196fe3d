/** The settings dialog (`components/SettingsModal.tsx`): local copies of the user,
    plating-type, jig and client masters edited row by row, the editable row with its
    save checks, saving the dialog, and restoring a backup file. A master row is a record
    of an id and named field values, so that the object spread `{...item, ...updated}`
    and the removal of the `password` key are modelled as they are written. */
module Settings {
  import opened Wrappers
  import opened Seqs
  import opened Strings
  import opened Types

  /** A field value as the rows hold it: text, or a number from a number input, which is
      `NaN` when the text does not read as a number. */
  datatype Value = Str(s: string) | Num(n: int) | NaN

  /** A master row: its id and its other fields by name. */
  datatype Record = Record(id: string, fields: map<string, Value>)

  /** The four master tables of the dialog. */
  datatype Section = UsersSection | PlatingSection | JigSection | ClientSection

  /** The field names each table edits (`userFields`, `platingFields`, `jigFields`,
      `clientFields`); `id` is never one of them. */
  function FieldKeys(section: Section): (r: seq<string>)
    ensures forall k :: k in r ==> k != "id"
    ensures "username" in r <==> section == UsersSection
  {
    match section
    case UsersSection => ["name", "username", "password", "role"]
    case PlatingSection => ["name", "unitPrice", "costPerLot"]
    case JigSection => ["name", "totalQuantity"]
    case ClientSection => ["name", "contactPerson"]
  }

  /** The row `handleAddItem` appends for each table, with the id `new-<now>`. */
  function NewRow(section: Section, now: nat): (r: Record)
    ensures StartsWith(r.id, "new-")
    ensures forall k :: k in r.fields <==> k in FieldKeys(section)
  {
    var id := "new-" + Decimal(now);
    match section
    case UsersSection =>
      Record(id, map["name" := Str(""), "username" := Str(""), "password" := Str(""), "role" := Str("user")])
    case PlatingSection => Record(id, map["name" := Str(""), "unitPrice" := Num(0), "costPerLot" := Num(0)])
    case JigSection => Record(id, map["name" := Str(""), "totalQuantity" := Num(0)])
    case ClientSection => Record(id, map["name" := Str(""), "contactPerson" := Str("")])
  }

  /** `Number(text)` as a field value: a whole number, or `NaN`. */
  function NumberOf(text: string): (v: Value)
    ensures AllWhitespace(text) ==> v == Num(0)
    ensures AllDigits(text) && text != [] ==> v == Num(DigitsValue(text))
  {
    match NumberValue(text)
    case Some(n) => Num(n)
    case None => NaN
  }

  /** `{...item, ...updated}`: the updated fields win, the others are kept. */
  function Merge(item: Record, updated: Record): (r: Record)
    ensures r.id == item.id
    ensures forall k :: k in r.fields <==> k in item.fields || k in updated.fields
    ensures forall k :: k in updated.fields ==> r.fields[k] == updated.fields[k]
    ensures forall k :: k in item.fields && k !in updated.fields ==> r.fields[k] == item.fields[k]
  {
    Record(item.id, item.fields + updated.fields)
  }

  /** Merging the same fields twice is merging them once. */
  lemma MergeIdempotent(item: Record, updated: Record)
    ensures Merge(Merge(item, updated), updated) == Merge(item, updated)
  {
    assert Merge(Merge(item, updated), updated).fields == Merge(item, updated).fields;
  }

  /** The list `handleUpdateItem` produces. */
  function Updated(items: seq<Record>, updated: Record): (r: seq<Record>)
    ensures |r| == |items|
    ensures forall i :: 0 <= i < |items| ==> r[i].id == items[i].id
    ensures forall i :: 0 <= i < |items| && items[i].id != updated.id ==> r[i] == items[i]
    ensures forall i :: 0 <= i < |items| && items[i].id == updated.id ==> r[i] == Merge(items[i], updated)
  {
    Map(items, (item: Record) => if item.id == updated.id then Merge(item, updated) else item)
  }

  /** The list `handleDeleteItem` produces. */
  function Removed(items: seq<Record>, id: string): (r: seq<Record>)
    ensures forall x :: x in r <==> x in items && x.id != id
  {
    Filter(items, (item: Record) => item.id != id)
  }

  /** Saving the same edit twice leaves the list as saving it once. */
  lemma UpdatedIdempotent(items: seq<Record>, updated: Record)
    ensures Updated(Updated(items, updated), updated) == Updated(items, updated)
  {
    var once := Updated(items, updated);
    forall i | 0 <= i < |items| ensures Updated(once, updated)[i] == once[i] {
      if items[i].id == updated.id {
        MergeIdempotent(items[i], updated);
      }
    }
  }

  /** Deleting a row discards any edit saved to it before: deleting after an update is
      deleting alone. */
  lemma {:induction false} RemovedAfterUpdated(items: seq<Record>, updated: Record)
    ensures Removed(Updated(items, updated), updated.id) == Removed(items, updated.id)
  {
    if |items| > 0 {
      var init := items[..|items| - 1];
      RemovedAfterUpdated(init, updated);
      assert Updated(items, updated)[..|items| - 1] == Updated(init, updated);
    }
  }

  /** Deleting a row just added, when no other row has its id, gives back the list as it
      was before the add. */
  lemma RemovedAfterAdd(items: seq<Record>, row: Record)
    requires forall x :: x in items ==> x.id != row.id
    ensures Removed(items + [row], row.id) == items
  {
    var p := (item: Record) => item.id != row.id;
    FilterConcat(items, [row], p);
    FilterAll(items, p);
  }

  /** Editing the field `name` of the row being edited (`handleChange`): a number input
      stores `Number(text)`, any other input the text. */
  function Edited(item: Record, name: string, text: string, isNumber: bool): (r: Record)
    requires name != "id"
    ensures r.id == item.id
    ensures name in r.fields && r.fields[name] == (if isNumber then NumberOf(text) else Str(text))
    ensures forall k :: k != name ==> (k in r.fields <==> k in item.fields)
    ensures forall k :: k != name && k in item.fields ==> r.fields[k] == item.fields[k]
  {
    Record(item.id, item.fields[name := if isNumber then NumberOf(text) else Str(text)])
  }

  /** What pressing 保存 on a row does: the record handed on, a refusal with a message,
      or a `TypeError`. */
  datatype SaveOutcome = Saved(record: Record) | Refused | Throws

  /** `s.trim()` on a field: it exists only when the field is text. */
  predicate IsText(item: Record, key: string)
  {
    key in item.fields && item.fields[key].Str?
  }

  /** The record saved for an existing row: a blank password key is dropped, so the
      merge keeps the stored password. */
  function WithoutBlankPassword(item: Record): (r: Record)
    ensures r.id == item.id
    ensures item.fields.Keys - {"password"} <= r.fields.Keys
    ensures forall k :: k in r.fields ==> k in item.fields && r.fields[k] == item.fields[k]
    ensures "password" in r.fields <==> "password" in item.fields && item.fields["password"] != Str("")
  {
    if "password" in item.fields && item.fields["password"] == Str("") then
      Record(item.id, item.fields - {"password"})
    else item
  }

  /** `handleSaveClick` as written: every new row must carry a non-blank username and
      password, read with `.trim()` whatever the table. */
  function SaveClickAsWritten(item: Record, isNew: bool): (r: SaveOutcome)
    ensures !isNew ==> r == Saved(WithoutBlankPassword(item))
    ensures isNew && !IsText(item, "username") ==> r == Throws
    ensures r.Refused? ==> isNew && IsText(item, "username")
                           && (AllWhitespace(item.fields["username"].s)
                               || (IsText(item, "password") && AllWhitespace(item.fields["password"].s)))
    ensures r.Saved? && isNew ==> r.record == item && IsText(item, "username") && IsText(item, "password")
                                  && !AllWhitespace(item.fields["username"].s) && !AllWhitespace(item.fields["password"].s)
  {
    if isNew then
      if !IsText(item, "username") then Throws
      else if AllWhitespace(item.fields["username"].s) then Refused
      else if !IsText(item, "password") then Throws
      else if AllWhitespace(item.fields["password"].s) then Refused
      else Saved(item)
    else Saved(WithoutBlankPassword(item))
  }

  /** `handleSaveClick` with the credential check kept to new user rows, the only rows
      that have a username and a password. */
  function SaveClick(item: Record, isNew: bool, section: Section): (r: SaveOutcome)
    ensures r.Refused? ==> isNew && section == UsersSection
    ensures isNew && section == UsersSection && IsText(item, "username") && IsText(item, "password") ==>
              (r.Refused? <==> AllWhitespace(item.fields["username"].s) || AllWhitespace(item.fields["password"].s))
    ensures r.Saved? && isNew ==> r.record == item
    ensures !isNew ==> r == Saved(WithoutBlankPassword(item))
    ensures isNew && section != UsersSection ==> r == Saved(item)
  {
    if isNew && section == UsersSection then SaveClickAsWritten(item, isNew)
    else if isNew then Saved(item)
    else Saved(WithoutBlankPassword(item))
  }

  /** The handler as written and the corrected one agree on every row but a new row
      outside the users table. */
  lemma SaveClickAgrees(item: Record, isNew: bool, section: Section)
    requires !isNew || section == UsersSection
    ensures SaveClick(item, isNew, section) == SaveClickAsWritten(item, isNew)
  {
  }

  /** The field edits a row receives, in order. */
  datatype Edit = Edit(name: string, text: string, isNumber: bool)

  /** A row after the edits of a table's own inputs. */
  function EditedAll(item: Record, section: Section, edits: seq<Edit>): (r: Record)
    requires forall e :: e in edits ==> e.name in FieldKeys(section)
    ensures r.id == item.id
  {
    if |edits| == 0 then item
    else
      var e := edits[|edits| - 1];
      assert e in edits && e.name in FieldKeys(section);
      Edited(EditedAll(item, section, edits[..|edits| - 1]), e.name, e.text, e.isNumber)
  }

  /** Edits confined to a table's own fields never add a key outside them. */
  lemma {:induction false} EditedAllKeys(item: Record, edits: seq<Edit>, section: Section)
    requires forall e :: e in edits ==> e.name in FieldKeys(section)
    ensures var r := EditedAll(item, section, edits); forall k :: k in r.fields ==> k in item.fields || k in FieldKeys(section)
  {
    if |edits| > 0 {
      EditedAllKeys(item, edits[..|edits| - 1], section);
    }
  }

  /** As written, a new plating-type, jig or client row can never be saved: whatever is
      typed into its fields, pressing 保存 reads the missing `username` and throws. */
  lemma NewMasterRowThrows(section: Section, now: nat, edits: seq<Edit>)
    requires section != UsersSection
    requires forall e :: e in edits ==> e.name in FieldKeys(section)
    ensures SaveClickAsWritten(EditedAll(NewRow(section, now), section, edits), true) == Throws
  {
    EditedAllKeys(NewRow(section, now), edits, section);
  }

  /** With the check kept to user rows, the same new row is saved as typed. */
  lemma NewMasterRowSaves(section: Section, now: nat, edits: seq<Edit>)
    requires section != UsersSection
    requires forall e :: e in edits ==> e.name in FieldKeys(section)
    ensures SaveClick(EditedAll(NewRow(section, now), section, edits), true, section) == Saved(EditedAll(NewRow(section, now), section, edits))
  {
  }

  /** Editing an existing user without typing a password keeps the stored one: the row
      opens with a blank password, the blank key is dropped on save, and the merge keeps
      what was stored. */
  lemma EditKeepsPassword(stored: Record, edits: seq<Edit>)
    requires forall e :: e in edits ==> e.name in FieldKeys(UsersSection) && e.name != "password"
    ensures var row := EditedAll(Record(stored.id, stored.fields["password" := Str("")]), UsersSection, edits);
            var saved := SaveClick(row, false, UsersSection).record;
            && ("password" in Merge(stored, saved).fields <==> "password" in stored.fields)
            && ("password" in stored.fields ==> Merge(stored, saved).fields["password"] == stored.fields["password"])
  {
    PasswordUntouched(Record(stored.id, stored.fields["password" := Str("")]), UsersSection, edits);
  }

  lemma {:induction false} PasswordUntouched(item: Record, section: Section, edits: seq<Edit>)
    requires forall e :: e in edits ==> e.name in FieldKeys(section) && e.name != "password"
    ensures ("password" in EditedAll(item, section, edits).fields <==> "password" in item.fields)
    ensures "password" in item.fields ==> EditedAll(item, section, edits).fields["password"] == item.fields["password"]
  {
    if |edits| > 0 {
      PasswordUntouched(item, section, edits[..|edits| - 1]);
    }
  }

  /** The tabs of the dialog. */
  datatype Tab = PlatingTab | JigsTab | ClientsTab | ProcessTab | ReportTab | UsersTab | DataTab | CloudTab

  /** Everything the dialog saves or a backup restores. */
  datatype MasterData = MasterData(
    users: seq<Record>, platingTypes: seq<Record>, jigs: seq<Record>, clients: seq<Record>,
    processDurations: Durations, settlementMonth: int)

  /** Every field of `SettingsDialog`, as one value. */
  datatype DialogState = DialogState(activeTab: Tab, data: MasterData, editingId: Option<string>)

  /** The dialog's local state. */
  class SettingsDialog {
    var activeTab: Tab
    var users: seq<Record>
    var platingTypes: seq<Record>
    var jigs: seq<Record>
    var clients: seq<Record>
    var processDurations: Durations
    var settlementMonth: int
    var editingId: Option<string>

    /** The whole state, as one value: each handler below states which of its parts
        change, and `State() == old(State()).(...)` keeps every other one. */
    function State(): DialogState
      reads this
    {
      DialogState(activeTab, MasterData(users, platingTypes, jigs, clients, processDurations, settlementMonth), editingId)
    }

    /** The local list a table edits. */
    function List(section: Section): seq<Record>
      reads this
    {
      match section
      case UsersSection => users
      case PlatingSection => platingTypes
      case JigSection => jigs
      case ClientSection => clients
    }

    /** Opening the dialog copies the saved masters into the local state. */
    constructor (saved: MasterData)
      ensures activeTab == PlatingTab && editingId == None
      ensures users == saved.users && platingTypes == saved.platingTypes && jigs == saved.jigs
      ensures clients == saved.clients && processDurations == saved.processDurations
      ensures settlementMonth == saved.settlementMonth
    {
      activeTab := PlatingTab;
      users, platingTypes, jigs, clients := saved.users, saved.platingTypes, saved.jigs, saved.clients;
      processDurations, settlementMonth := saved.processDurations, saved.settlementMonth;
      editingId := None;
    }

    /** A tab button: no row stays in editing. */
    method SelectTab(tab: Tab)
      modifies this
      ensures activeTab == tab && editingId == None
      ensures State() == old(State()).(activeTab := tab, editingId := None)
    {
      activeTab := tab;
      editingId := None;
    }

    /** The pencil button, and 取消 (`id` none). */
    method SetEditing(id: Option<string>)
      modifies this
      ensures editingId == id
      ensures State() == old(State()).(editingId := id)
    {
      editingId := id;
    }

    /** `handleAddItem`: the new row goes last and is the one being edited. */
    method AddItem(section: Section, newItem: Record)
      modifies this
      ensures List(section) == old(List(section)) + [newItem]
      ensures editingId == Some(newItem.id)
      ensures forall s :: s != section ==> List(s) == old(List(s))
      ensures State() == old(State()).(data := State().data, editingId := editingId)
      ensures processDurations == old(processDurations) && settlementMonth == old(settlementMonth)
    {
      match section {
        case UsersSection => users := users + [newItem];
        case PlatingSection => platingTypes := platingTypes + [newItem];
        case JigSection => jigs := jigs + [newItem];
        case ClientSection => clients := clients + [newItem];
      }
      editingId := Some(newItem.id);
    }

    /** `handleUpdateItem`: the saved fields are merged into every row with that id, the
        other rows are kept, and no row stays in editing. */
    method UpdateItem(section: Section, updated: Record)
      modifies this
      ensures List(section) == Updated(old(List(section)), updated)
      ensures editingId == None
      ensures forall s :: s != section ==> List(s) == old(List(s))
      ensures State() == old(State()).(data := State().data, editingId := editingId)
      ensures processDurations == old(processDurations) && settlementMonth == old(settlementMonth)
    {
      match section {
        case UsersSection => users := Updated(users, updated);
        case PlatingSection => platingTypes := Updated(platingTypes, updated);
        case JigSection => jigs := Updated(jigs, updated);
        case ClientSection => clients := Updated(clients, updated);
      }
      editingId := None;
    }

    /** `handleDeleteItem`: once confirmed, every row with that id goes and the others
        stay in order. */
    method DeleteItem(section: Section, id: string, confirmed: bool)
      modifies this
      ensures confirmed ==> List(section) == Removed(old(List(section)), id)
      ensures !confirmed ==> List(section) == old(List(section))
      ensures forall s :: s != section ==> List(s) == old(List(s))
      ensures State() == old(State()).(data := State().data)
      ensures processDurations == old(processDurations) && settlementMonth == old(settlementMonth)
    {
      if confirmed {
        match section {
          case UsersSection => users := Removed(users, id);
          case PlatingSection => platingTypes := Removed(platingTypes, id);
          case JigSection => jigs := Removed(jigs, id);
          case ClientSection => clients := Removed(clients, id);
        }
      }
    }

    /** `handleSave`: every local list and setting goes to its callback. */
    method Save() returns (data: MasterData)
      ensures data == MasterData(users, platingTypes, jigs, clients, processDurations, settlementMonth)
    {
      data := MasterData(users, platingTypes, jigs, clients, processDurations, settlementMonth);
    }
  }

  /** The row being edited. */
  class EditableRow {
    var editItem: Record
    const isNew: bool
    const section: Section

    /** A row is new when its id starts with `new-`. */
    constructor (item: Record, section: Section)
      ensures editItem == item && this.section == section
      ensures isNew <==> StartsWith(item.id, "new-")
    {
      editItem := item;
      isNew := StartsWith(item.id, "new-");
      this.section := section;
    }

    /** `handleChange` from the input for field `name`. */
    method HandleChange(name: string, text: string, isNumber: bool)
      modifies this
      requires name in FieldKeys(section)
      ensures editItem == Edited(old(editItem), name, text, isNumber)
    {
      editItem := Edited(editItem, name, text, isNumber);
    }

    /** `handleSaveClick`, as written. */
    method SaveClickHandler() returns (outcome: SaveOutcome)
      ensures outcome == SaveClickAsWritten(editItem, isNew)
    {
      outcome := SaveClickAsWritten(editItem, isNew);
    }
  }

  /** The sections of a backup file; a missing section is `None`. */
  datatype Backup = Backup(
    users: Option<seq<Record>>, platingTypes: Option<seq<Record>>, jigs: Option<seq<Record>>,
    clients: Option<seq<Record>>, processDurations: Option<Durations>, settlementMonth: Option<int>,
    jobs: Option<seq<Job>>, correspondenceLogs: Option<seq<CorrespondenceLog>>)

  /** All the stored data a backup can restore. */
  datatype StoredData = StoredData(masters: MasterData, jobs: seq<Job>, correspondenceLogs: seq<CorrespondenceLog>)

  /** `handleImportData` once the file has been read: nothing changes unless it parsed
      and the overwrite is confirmed; then each section present replaces the stored one,
      except a settlement month of 0, which is falsy and skipped. */
  function Imported(current: StoredData, file: Option<Backup>, confirmed: bool): (r: StoredData)
    ensures file.None? || !confirmed ==> r == current
    ensures file.Some? && confirmed ==>
      && r.masters.users == file.value.users.GetOr(current.masters.users)
      && r.masters.platingTypes == file.value.platingTypes.GetOr(current.masters.platingTypes)
      && r.masters.jigs == file.value.jigs.GetOr(current.masters.jigs)
      && r.masters.clients == file.value.clients.GetOr(current.masters.clients)
      && r.masters.processDurations == file.value.processDurations.GetOr(current.masters.processDurations)
      && r.jobs == file.value.jobs.GetOr(current.jobs)
      && r.correspondenceLogs == file.value.correspondenceLogs.GetOr(current.correspondenceLogs)
      && r.masters.settlementMonth
         == (if file.value.settlementMonth.Some? && file.value.settlementMonth.value != 0
             then file.value.settlementMonth.value else current.masters.settlementMonth)
  {
    if file.None? || !confirmed then current
    else
      var b := file.value;
      var m := current.masters;
      var month := if b.settlementMonth.Some? && b.settlementMonth.value != 0 then b.settlementMonth.value else m.settlementMonth;
      StoredData(
        MasterData(b.users.GetOr(m.users), b.platingTypes.GetOr(m.platingTypes), b.jigs.GetOr(m.jigs),
                   b.clients.GetOr(m.clients), b.processDurations.GetOr(m.processDurations), month),
        b.jobs.GetOr(current.jobs), b.correspondenceLogs.GetOr(current.correspondenceLogs))
  }

  /** Restoring the same backup twice is restoring it once. */
  lemma ImportIdempotent(current: StoredData, file: Option<Backup>)
    ensures Imported(Imported(current, file, true), file, true) == Imported(current, file, true)
  {
  }

  /** Restoring a backup of everything gives back exactly the backed-up data. */
  lemma ImportFullBackup(current: StoredData, saved: StoredData)
    requires saved.masters.settlementMonth != 0
    ensures var m := saved.masters;
            var b := Backup(Some(m.users), Some(m.platingTypes), Some(m.jigs), Some(m.clients),
                            Some(m.processDurations), Some(m.settlementMonth), Some(saved.jobs),
                            Some(saved.correspondenceLogs));
            Imported(current, Some(b), true) == saved
  {
  }
}
