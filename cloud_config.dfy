/** The cloud connection dialog (`components/CloudConfigModal.tsx`): a three-field form
    that is typed into or filled from a configuration file, and checked on save. */
module CloudConfig {
  import opened Wrappers
  import opened Types

  /** The inputs, by their `name`. */
  datatype ConfigField = ApiKey | AuthDomain | ProjectId

  /** Every field filled in: the check both save and import make. */
  predicate Complete(c: FirebaseConfig)
  {
    c.apiKey != "" && c.authDomain != "" && c.projectId != ""
  }

  /** A configuration file read as a JSON object with text values; a key it lacks is
      `undefined`. */
  type ConfigFile = map<string, string>

  /** `data.key` is truthy: present and not empty. */
  predicate Has(data: ConfigFile, key: string)
  {
    key in data && data[key] != ""
  }

  /** A file an import accepts: all three keys present and filled in. */
  predicate Accepted(data: ConfigFile)
  {
    Has(data, "apiKey") && Has(data, "authDomain") && Has(data, "projectId")
  }

  /** The three fields an import keeps; every other key of the file is dropped. */
  function FromFile(data: ConfigFile): (c: FirebaseConfig)
    requires Accepted(data)
    ensures Complete(c)
    ensures c.apiKey == data["apiKey"] && c.authDomain == data["authDomain"] && c.projectId == data["projectId"]
  {
    FirebaseConfig(data["apiKey"], data["authDomain"], data["projectId"])
  }

  /** Two files that agree on the three keys fill the form the same way, whatever else
      they hold. */
  lemma FromFileIgnoresOtherKeys(a: ConfigFile, b: ConfigFile)
    requires Accepted(a)
    requires forall k :: k in {"apiKey", "authDomain", "projectId"} ==> k in b && b[k] == a[k]
    ensures Accepted(b)
    ensures FromFile(b) == FromFile(a)
  {
    assert "apiKey" in {"apiKey", "authDomain", "projectId"};
    assert "authDomain" in {"apiKey", "authDomain", "projectId"};
    assert "projectId" in {"apiKey", "authDomain", "projectId"};
  }

  /** The form's state, `formData`. */
  class ConfigForm {
    var formData: FirebaseConfig

    /** The dialog opens on the saved configuration, or on an empty form. */
    constructor (config: Option<FirebaseConfig>)
      ensures formData == config.GetOr(FirebaseConfig("", "", ""))
    {
      formData := config.GetOr(FirebaseConfig("", "", ""));
    }

    /** `handleChange`: only the named field changes. */
    method HandleChange(field: ConfigField, value: string)
      modifies this
      ensures formData.apiKey == (if field == ApiKey then value else old(formData).apiKey)
      ensures formData.authDomain == (if field == AuthDomain then value else old(formData).authDomain)
      ensures formData.projectId == (if field == ProjectId then value else old(formData).projectId)
    {
      match field {
        case ApiKey => formData := formData.(apiKey := value);
        case AuthDomain => formData := formData.(authDomain := value);
        case ProjectId => formData := formData.(projectId := value);
      }
    }

    /** `handleSave`: the form goes to `onSave` unchanged when every field is filled;
        otherwise nothing is saved. */
    method Save() returns (saved: Option<FirebaseConfig>)
      ensures saved == SaveResult(formData)
    {
      saved := SaveResult(formData);
    }

    /** `handleImportConfig` once the file is read (`None`: it did not parse as an
        object): a file with all three keys replaces the form with just those three;
        any other file leaves the form as it was. */
    method ImportConfig(file: Option<ConfigFile>)
      modifies this
      ensures formData == Imported(old(formData), file)
    {
      formData := Imported(formData, file);
    }
  }

  /** What `handleSave` passes to `onSave`. */
  function SaveResult(form: FirebaseConfig): (r: Option<FirebaseConfig>)
    ensures r.Some? <==> Complete(form)
    ensures r.Some? ==> r.value == form
  {
    if form.apiKey == "" || form.authDomain == "" || form.projectId == "" then None else Some(form)
  }

  /** The form after an import. */
  function Imported(form: FirebaseConfig, file: Option<ConfigFile>): (r: FirebaseConfig)
    ensures file.None? ==> r == form
    ensures file.Some? && Accepted(file.value) ==> r == FromFile(file.value)
    ensures file.Some? && !Accepted(file.value) ==> r == form
  {
    if file.Some? && Accepted(file.value) then FromFile(file.value)
    else form
  }

  /** An import that changes the form leaves it ready to save: the save then hands on
      exactly the three imported values. */
  lemma ImportThenSave(form: FirebaseConfig, file: Option<ConfigFile>)
    requires Imported(form, file) != form
    ensures SaveResult(Imported(form, file)).Some?
    ensures var c := SaveResult(Imported(form, file)).value;
            file.Some? && c.apiKey == file.value["apiKey"] && c.authDomain == file.value["authDomain"]
            && c.projectId == file.value["projectId"]
  {
  }

  /** A saved configuration, exported to a file and read back, restores the same form. */
  lemma ExportImportRoundTrip(form: FirebaseConfig, other: FirebaseConfig)
    requires Complete(form)
    ensures Imported(other, Some(map["apiKey" := form.apiKey, "authDomain" := form.authDomain, "projectId" := form.projectId])) == form
  {
  }
}
