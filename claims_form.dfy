/**
 * The accident-claim form: six text fields and three required photos, a
 * validity predicate that enables submission, field-only updates, and a
 * submit sequence (loading, then success, then back to the dashboard).
 */
module ClaimsForm {
  import opened Wrappers

  /** The claim; a photo is modelled by whether a file is attached. */
  datatype ClaimData = ClaimData(
    nom: string, prenom: string, telephone: string,
    dateAccident: string, lieuAccident: string, circonstances: string,
    photoAssurance: bool, photoPermis: bool, photoCarteGrise: bool)

  datatype TextField = Nom | Prenom | Telephone | DateAccident | LieuAccident | Circonstances
  datatype PhotoField = PhotoAssurance | PhotoPermis | PhotoCarteGrise

  const EmptyClaim: ClaimData := ClaimData("", "", "", "", "", "", false, false, false)

  function Text(data: ClaimData, field: TextField): string {
    match field
    case Nom => data.nom
    case Prenom => data.prenom
    case Telephone => data.telephone
    case DateAccident => data.dateAccident
    case LieuAccident => data.lieuAccident
    case Circonstances => data.circonstances
  }

  function Photo(data: ClaimData, field: PhotoField): bool {
    match field
    case PhotoAssurance => data.photoAssurance
    case PhotoPermis => data.photoPermis
    case PhotoCarteGrise => data.photoCarteGrise
  }

  /** `updateFormData` on a text field: that field takes the value, every other field keeps its own. */
  function WithText(data: ClaimData, field: TextField, value: string): (r: ClaimData)
    ensures Text(r, field) == value
    ensures forall f :: f != field ==> Text(r, f) == Text(data, f)
    ensures forall p :: Photo(r, p) == Photo(data, p)
  {
    match field
    case Nom => data.(nom := value)
    case Prenom => data.(prenom := value)
    case Telephone => data.(telephone := value)
    case DateAccident => data.(dateAccident := value)
    case LieuAccident => data.(lieuAccident := value)
    case Circonstances => data.(circonstances := value)
  }

  /** `handleFileUpload`: that photo is attached or cleared, every other field keeps its own. */
  function WithPhoto(data: ClaimData, field: PhotoField, present: bool): (r: ClaimData)
    ensures Photo(r, field) == present
    ensures forall p :: p != field ==> Photo(r, p) == Photo(data, p)
    ensures forall f :: Text(r, f) == Text(data, f)
  {
    match field
    case PhotoAssurance => data.(photoAssurance := present)
    case PhotoPermis => data.(photoPermis := present)
    case PhotoCarteGrise => data.(photoCarteGrise := present)
  }

  /** `isFormValid`: all six text fields non-empty and all three photos attached. */
  predicate IsFormValid(data: ClaimData) {
    data.nom != "" && data.prenom != "" && data.telephone != "" &&
    data.dateAccident != "" && data.lieuAccident != "" && data.circonstances != "" &&
    data.photoAssurance && data.photoPermis && data.photoCarteGrise
  }

  /** The form is valid exactly when no text field is empty and no photo is missing. */
  lemma {:induction false} FormValidIffComplete(data: ClaimData)
    ensures IsFormValid(data) <==> (forall f :: Text(data, f) != "") && (forall p :: Photo(data, p))
  {
    assert Text(data, Nom) == data.nom && Text(data, Prenom) == data.prenom;
    assert Text(data, Telephone) == data.telephone && Text(data, DateAccident) == data.dateAccident;
    assert Text(data, LieuAccident) == data.lieuAccident && Text(data, Circonstances) == data.circonstances;
    assert Photo(data, PhotoAssurance) == data.photoAssurance && Photo(data, PhotoPermis) == data.photoPermis;
    assert Photo(data, PhotoCarteGrise) == data.photoCarteGrise;
  }

  /** Clearing any photo makes the form invalid. */
  lemma ClearedPhotoInvalidates(data: ClaimData, field: PhotoField)
    ensures !IsFormValid(WithPhoto(data, field, false))
  {
    FormValidIffComplete(WithPhoto(data, field, false));
  }

  /** Emptying any text field makes the form invalid. */
  lemma EmptiedTextInvalidates(data: ClaimData, field: TextField)
    ensures !IsFormValid(WithText(data, field, ""))
  {
    FormValidIffComplete(WithText(data, field, ""));
  }

  class ClaimsForm {
    var formData: ClaimData
    var loading: bool
    var success: bool

    constructor ()
      ensures formData == EmptyClaim && !loading && !success
    {
      formData, loading, success := EmptyClaim, false, false;
    }

    /** `updateFormData` for a text input. */
    method UpdateFormData(field: TextField, value: string)
      modifies this
      ensures formData == WithText(old(formData), field, value)
      ensures loading == old(loading) && success == old(success)
    {
      formData := WithText(formData, field, value);
    }

    /** `handleFileUpload`; `present` is false when the picker returns no file. */
    method HandleFileUpload(field: PhotoField, present: bool)
      modifies this
      ensures formData == WithPhoto(old(formData), field, present)
      ensures !present ==> !IsFormValid(formData)
      ensures loading == old(loading) && success == old(success)
    {
      formData := WithPhoto(formData, field, present);
      if !present {
        ClearedPhotoInvalidates(old(formData), field);
      }
    }

    /** The submit button is enabled exactly when the form is valid. */
    function SubmitEnabled(): (enabled: bool)
      reads this
      ensures enabled <==> (forall f :: Text(formData, f) != "") && (forall p :: Photo(formData, p))
    {
      FormValidIffComplete(formData);
      IsFormValid(formData)
    }

    /** `handleSubmit` up to the simulated call's delay. */
    method BeginSubmit()
      modifies this
      ensures loading && success == old(success) && formData == old(formData)
    {
      loading := true;
    }

    /** After the simulated call: loading ends and the acknowledgement is shown. */
    method AfterSubmitDelay()
      modifies this
      ensures !loading && success && formData == old(formData)
    {
      loading := false;
      success := true;
    }

    /** The whole submit: loading, then success, then the delayed navigation to the dashboard. */
    method HandleSubmit() returns (nav: Option<string>)
      modifies this
      ensures nav == Some("dashboard")
      ensures !loading && success && formData == old(formData)
    {
      BeginSubmit();
      AfterSubmitDelay();
      nav := Some("dashboard");
    }

    /** "Annuler" and the header's back arrow: the dashboard, with the form left as it is. */
    method Cancel() returns (nav: string)
      ensures nav == "dashboard"
    {
      nav := "dashboard";
    }
  }
}
