/** The edit-profile form: fields seeded from the loaded profile (or defaults), every
    edit ignored while a save is in flight, digit-only number fields, an allergy list
    rebuilt with `-` and `+`, and the save action that hands the request to its caller. */
module EditProfile {
  import opened KotlinText
  import opened Models
  import PhysicalDataForm

  const DefaultBirthdate: string := "2000-01-01"
  const DefaultActivity: real := 1.2

  /** The update-profile request that sends `p` back as it is; a missing birthdate is sent
      as the default date. */
  function ResentRequest(p: FullUserProfile): PhysicalDataRequest {
    PhysicalDataRequest(p.name, p.birthdate.GetOr(DefaultBirthdate), p.physicalData.gender,
                        p.physicalData.height, p.physicalData.weight, p.physicalData.activityLevel, p.allergies)
  }

  /** The profile's Int fields are JVM Ints. */
  predicate IntFields(p: FullUserProfile) {
    IntMin <= p.physicalData.height <= IntMax && IntMin <= p.physicalData.weight <= IntMax
  }

  class EditProfileForm {
    const userData: Option<FullUserProfile>
    var isSaving: bool
    var showDatePicker: bool
    var name: string
    var birthdate: string
    var height: string
    var weight: string
    var gender: int
    var selectedAllergies: seq<string>

    /** The activity level `onSave` passes: the loaded one, 1.2 without a profile. */
    function ActivityLevel(): (a: real)
      reads this
      ensures userData.None? ==> a == DefaultActivity
      ensures userData.Some? ==> a == userData.value.physicalData.activityLevel
    {
      match userData
      case None => DefaultActivity
      case Some(p) => p.physicalData.activityLevel
    }

    /** The request `onSave` receives for the form as it is; the caller builds exactly
        this `PhysicalDataRequest` from the seven arguments. */
    function Request(): (r: PhysicalDataRequest)
      reads this
      ensures r.name == name && r.birthdate == birthdate && r.gender == gender && r.allergies == selectedAllergies
      ensures r.height == IntOrZero(height) && r.weight == IntOrZero(weight)
      ensures r.activityLevel == ActivityLevel()
    {
      PhysicalDataRequest(name, birthdate, gender, IntOrZero(height), IntOrZero(weight), ActivityLevel(), selectedAllergies)
    }

    constructor (userData: Option<FullUserProfile>)
      ensures this.userData == userData && !isSaving && !showDatePicker
      ensures userData.None? ==>
                name == "" && birthdate == DefaultBirthdate && height == "" && weight == ""
                && gender == 0 && selectedAllergies == []
      ensures userData.Some? ==>
                var p := userData.value;
                name == p.name && birthdate == p.birthdate.GetOr(DefaultBirthdate)
                && height == IntToString(p.physicalData.height) && weight == IntToString(p.physicalData.weight)
                && gender == p.physicalData.gender && selectedAllergies == p.allergies
    {
      this.userData := userData;
      isSaving, showDatePicker := false, false;
      match userData
      case None =>
        name, birthdate, height, weight, gender, selectedAllergies := "", DefaultBirthdate, "", "", 0, [];
      case Some(p) =>
        name, birthdate := p.name, p.birthdate.GetOr(DefaultBirthdate);
        height, weight := IntToString(p.physicalData.height), IntToString(p.physicalData.weight);
        gender, selectedAllergies := p.physicalData.gender, p.allergies;
    }

    method EditName(text: string)
      modifies this`name
      ensures name == if old(isSaving) then old(name) else text
    {
      if !isSaving { name := text; }
    }

    /** The number fields take new text only when not saving and all of it is digits. */
    method EditHeight(text: string)
      modifies this`height
      ensures height == if !isSaving && AllDigits(text) then text else old(height)
    {
      if !isSaving && AllDigits(text) { height := text; }
    }

    method EditWeight(text: string)
      modifies this`weight
      ensures weight == if !isSaving && AllDigits(text) then text else old(weight)
    {
      if !isSaving && AllDigits(text) { weight := text; }
    }

    /** The gender chips: 0 for "Laki-laki", 1 for "Perempuan". */
    method SelectGender(female: bool)
      modifies this`gender
      ensures gender == if old(isSaving) then old(gender) else if female then 1 else 0
    {
      if !isSaving { gender := if female then 1 else 0; }
    }

    /** The birthdate field's click opens the picker unless saving. */
    method OpenDatePicker()
      modifies this`showDatePicker
      ensures showDatePicker == (old(showDatePicker) || !isSaving)
    {
      if !isSaving { showDatePicker := true; }
    }

    /** The picker's "OK": the selected date, already rendered as an ISO local date by
        `LocalDate.toString()`, replaces the birthdate when one is selected. */
    method ConfirmDate(selected: Option<string>)
      modifies this`birthdate, this`showDatePicker
      ensures !showDatePicker
      ensures birthdate == selected.GetOr(old(birthdate))
    {
      if selected.Some? { birthdate := selected.value; }
      showDatePicker := false;
    }

    method DismissDatePicker()
      modifies this`showDatePicker
      ensures !showDatePicker
    {
      showDatePicker := false;
    }

    /** An allergy chip: a fresh list without the first occurrence, or with the item
        appended, and nothing while saving. */
    method ToggleAllergy(allergy: string)
      modifies this`selectedAllergies
      ensures old(isSaving) ==> selectedAllergies == old(selectedAllergies)
      ensures !old(isSaving) ==> selectedAllergies == PhysicalDataForm.Toggled(old(selectedAllergies), allergy)
    {
      if !isSaving {
        selectedAllergies := if allergy in selectedAllergies then RemoveFirst(selectedAllergies, allergy)
                             else selectedAllergies + [allergy];
      }
    }

    /** The top bar's back arrow: disabled while saving. */
    method Back() returns (wentBack: bool)
      ensures wentBack <==> !isSaving
    {
      wentBack := !isSaving;
    }

    /** "Simpan": hidden while saving; otherwise it sets `isSaving` for good (nothing
        here resets it) and calls `onSave` with the form's request. */
    method Save() returns (onSave: Option<PhysicalDataRequest>)
      modifies this`isSaving
      ensures isSaving
      ensures old(isSaving) ==> onSave.None?
      ensures !old(isSaving) ==> onSave == Some(Request())
    {
      if isSaving {
        onSave := None;
      } else {
        isSaving := true;
        onSave := Some(Request());
      }
    }
  }

  /** Opening the form on a loaded profile and saving it without an edit sends the
      profile back unchanged: the number fields print and re-parse, and the birthdate
      and activity defaults agree with the ones the update-TDEE request uses. */
  method SaveUnedited(p: FullUserProfile) returns (onSave: Option<PhysicalDataRequest>)
    requires IntFields(p)
    ensures onSave == Some(ResentRequest(p))
  {
    var form := new EditProfileForm(Some(p));
    IntToStringRoundTrip(p.physicalData.height);
    IntToStringRoundTrip(p.physicalData.weight);
    onSave := form.Save();
  }

  /** Once a save has started, no edit changes the request any more. */
  method EditsWhileSaving(form: EditProfileForm, text: string, allergy: string, female: bool)
    returns (before: PhysicalDataRequest, after: PhysicalDataRequest)
    requires form.isSaving
    modifies form
    ensures before == after
  {
    before := form.Request();
    form.EditName(text);
    form.EditHeight(text);
    form.EditWeight(text);
    form.SelectGender(female);
    form.OpenDatePicker();
    form.ToggleAllergy(allergy);
    assert form.name == old(form.name) && form.height == old(form.height) && form.weight == old(form.weight);
    assert form.gender == old(form.gender) && form.birthdate == old(form.birthdate);
    assert form.selectedAllergies == old(form.selectedAllergies);
    after := form.Request();
  }
}
