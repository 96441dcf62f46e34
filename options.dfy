/** The extension's settings page: filling the form from stored values, the
    form's validation rules, and the trimmed record it saves. */
module Options {

  import opened Wrappers
  import JsString

  /** A value read from extension storage, by its JavaScript type. */
  datatype StoredValue = StoredString(text: string) | StoredNumber(number: int) | StoredOther

  /** What `chrome.storage.local` returns or is given: keys to values; a
      missing key reads as `undefined`. */
  type Storage = map<string, StoredValue>

  datatype FormValues = FormValues(
    name: string, years: int, currentRole: string, topSkills: string,
    keyAchievement: string, portfolioUrl: string, location: string)

  /** The keys read on load (and written on save). */
  const StorageKeys: seq<string> :=
    ["name", "years", "currentRole", "topSkills", "keyAchievement", "portfolioUrl", "location"]

  /** The form's `defaultValues`. */
  const DefaultValues := FormValues("", 0, "", "", "", "", "")

  /** A form field under its storage key, as the value saved for it. */
  function Field(v: FormValues, key: string): StoredValue
  {
    if key == "name" then StoredString(v.name)
    else if key == "years" then StoredNumber(v.years)
    else if key == "currentRole" then StoredString(v.currentRole)
    else if key == "topSkills" then StoredString(v.topSkills)
    else if key == "keyAchievement" then StoredString(v.keyAchievement)
    else if key == "portfolioUrl" then StoredString(v.portfolioUrl)
    else if key == "location" then StoredString(v.location)
    else StoredOther
  }

  /** Same JavaScript type. */
  predicate SameKind(a: StoredValue, b: StoredValue)
  {
    (a.StoredString? && b.StoredString?) || (a.StoredNumber? && b.StoredNumber?) ||
    (a.StoredOther? && b.StoredOther?)
  }

  /** `typeof res[key] === 'string' ? res[key] : ''`. */
  function StringOr(res: Storage, key: string): string
  {
    if key in res && res[key].StoredString? then res[key].text else ""
  }

  /** `typeof res[key] === 'number' ? res[key] : 0`. */
  function NumberOr(res: Storage, key: string): int
  {
    if key in res && res[key].StoredNumber? then res[key].number else 0
  }

  /** The values the form is reset to once storage has been read. */
  function LoadForm(res: Storage): FormValues
  {
    FormValues(
      StringOr(res, "name"), NumberOr(res, "years"), StringOr(res, "currentRole"),
      StringOr(res, "topSkills"), StringOr(res, "keyAchievement"),
      StringOr(res, "portfolioUrl"), StringOr(res, "location"))
  }

  /** The `payload` of `onSubmit`: every string field trimmed, `years` as is. */
  function SavePayload(data: FormValues): FormValues
  {
    FormValues(
      JsString.Trim(data.name), data.years, JsString.Trim(data.currentRole),
      JsString.Trim(data.topSkills), JsString.Trim(data.keyAchievement),
      JsString.Trim(data.portfolioUrl), JsString.Trim(data.location))
  }

  /** The object handed to `chrome.storage.local.set`. */
  function ToStorage(v: FormValues): (res: Storage)
  {
    map key | key in StorageKeys :: Field(v, key)
  }

  /** The messages of the declared validation rules, by field:
      name, currentRole and topSkills are required (the empty string fails),
      and years must be at least 0. */
  function FormErrors(v: FormValues): map<string, string>
  {
    var e0: map<string, string> := map[];
    var e1 := if v.name == "" then e0["name" := "Name is required"] else e0;
    var e2 := if v.years < 0 then e1["years" := "Must be 0 or greater"] else e1;
    var e3 := if v.currentRole == "" then e2["currentRole" := "Current role is required"] else e2;
    if v.topSkills == "" then e3["topSkills" := "Skills are required"] else e3
  }

  /** What a submit stores: nothing while a rule fails, else the payload. */
  function Submit(v: FormValues): Option<Storage>
  {
    if FormErrors(v) == map[] then Some(ToStorage(SavePayload(v))) else None
  }

  // ---- properties ----

  /** Loading is type-directed: each of the seven fields keeps a stored value
      of its own type and otherwise takes its default ('' or 0). */
  lemma LoadKeepsTypedValues(res: Storage, key: string)
    requires key in StorageKeys
    ensures Field(LoadForm(res), key) ==
      if key in res && SameKind(res[key], Field(DefaultValues, key)) then res[key]
      else Field(DefaultValues, key)
  {
  }

  /** With nothing stored, loading gives the form's default values. */
  lemma LoadEmptyIsDefault()
    ensures LoadForm(map[]) == DefaultValues
  {
  }

  /** Loading reads only the seven keys. */
  lemma LoadReadsOnlyStorageKeys(res: Storage, other: Storage)
    requires forall key | key in StorageKeys :: (key in res <==> key in other) && (key in res ==> res[key] == other[key])
    ensures LoadForm(res) == LoadForm(other)
  {
    assert "name" in StorageKeys && "years" in StorageKeys && "currentRole" in StorageKeys;
    assert "topSkills" in StorageKeys && "keyAchievement" in StorageKeys;
    assert "portfolioUrl" in StorageKeys && "location" in StorageKeys;
  }

  /** The keys written on save are exactly the keys read on load. */
  lemma SavedKeysAreLoadedKeys(v: FormValues)
    ensures ToStorage(v).Keys == set key | key in StorageKeys
  {
  }

  /** Saving trims every string field and leaves `years` unchanged. */
  lemma SaveTrims(data: FormValues)
    ensures var p := SavePayload(data);
      p.years == data.years &&
      JsString.IsTrimmed(p.name) && JsString.IsTrimmed(p.currentRole) &&
      JsString.IsTrimmed(p.topSkills) && JsString.IsTrimmed(p.keyAchievement) &&
      JsString.IsTrimmed(p.portfolioUrl) && JsString.IsTrimmed(p.location)
  {
  }

  /** Saving is idempotent: normalising an already-saved payload again
      leaves it unchanged. */
  lemma SaveIdempotent(data: FormValues)
    ensures SavePayload(SavePayload(data)) == SavePayload(data)
  {
    JsString.TrimIdempotent(data.name);
    JsString.TrimIdempotent(data.currentRole);
    JsString.TrimIdempotent(data.topSkills);
    JsString.TrimIdempotent(data.keyAchievement);
    JsString.TrimIdempotent(data.portfolioUrl);
    JsString.TrimIdempotent(data.location);
  }

  /** Round trip: loading what was saved gives back the saved values. */
  lemma SaveThenLoad(v: FormValues)
    ensures LoadForm(ToStorage(v)) == v
  {
    var res := ToStorage(v);
    assert StringOr(res, "name") == v.name by { StoredAt(v, "name"); }
    assert NumberOr(res, "years") == v.years by { StoredAt(v, "years"); }
    assert StringOr(res, "currentRole") == v.currentRole by { StoredAt(v, "currentRole"); }
    assert StringOr(res, "topSkills") == v.topSkills by { StoredAt(v, "topSkills"); }
    assert StringOr(res, "keyAchievement") == v.keyAchievement by { StoredAt(v, "keyAchievement"); }
    assert StringOr(res, "portfolioUrl") == v.portfolioUrl by { StoredAt(v, "portfolioUrl"); }
    assert StringOr(res, "location") == v.location by { StoredAt(v, "location"); }
  }

  /** Each of the seven keys is saved with its field's value. */
  lemma StoredAt(v: FormValues, key: string)
    requires key in StorageKeys
    ensures key in ToStorage(v) && ToStorage(v)[key] == Field(v, key)
  {
  }

  /** No rule reports an error exactly when all four rules hold. */
  lemma NoErrorsIffRulesHold(v: FormValues)
    ensures FormErrors(v) == map[] <==>
      v.name != "" && v.years >= 0 && v.currentRole != "" && v.topSkills != ""
    ensures ("name" in FormErrors(v) <==> v.name == "") &&
      ("years" in FormErrors(v) <==> v.years < 0) &&
      ("currentRole" in FormErrors(v) <==> v.currentRole == "") &&
      ("topSkills" in FormErrors(v) <==> v.topSkills == "")
    ensures forall key | key in FormErrors(v) :: key in {"name", "years", "currentRole", "topSkills"}
  {
    var errs := FormErrors(v);
    if v.name == "" {
      assert "name" in errs;
    } else if v.years < 0 {
      assert "years" in errs;
    } else if v.currentRole == "" {
      assert "currentRole" in errs;
    } else if v.topSkills == "" {
      assert "topSkills" in errs;
    }
  }

  /** The form submits exactly when every declared rule holds. */
  lemma SubmitIffRulesHold(v: FormValues)
    ensures Submit(v).Some? <==>
      v.name != "" && v.years >= 0 && v.currentRole != "" && v.topSkills != ""
    ensures Submit(v).Some? ==> Submit(v).value == ToStorage(SavePayload(v))
  {
    NoErrorsIffRulesHold(v);
  }

  /** The rules are checked before trimming: a name made only of blanks
      passes `required`, and is then saved as the empty string. */
  lemma BlankNameIsSavedEmpty(v: FormValues)
    requires v.name != "" && JsString.AllWhitespace(v.name)
    requires v.years >= 0 && v.currentRole != "" && v.topSkills != ""
    ensures Submit(v) == Some(ToStorage(SavePayload(v)))
    ensures SavePayload(v).name == ""
  {
    SubmitIffRulesHold(v);
    JsString.BlankTrimsToEmpty(v.name);
  }
}
