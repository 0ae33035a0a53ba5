/**
 * The complaints form: five text fields, a motif chosen from a fixed list,
 * a validity predicate plus a 20-code-unit minimum on the description that
 * together enable submission, and the submit sequence (loading, then
 * success, then back to the dashboard).
 */
module ComplaintsForm {
  import opened Wrappers

  datatype ComplaintData = ComplaintData(
    nom: string, prenom: string, telephone: string, motif: string, description: string)

  datatype Field = Nom | Prenom | Telephone | Motif | Description

  const EmptyComplaint: ComplaintData := ComplaintData("", "", "", "", "")

  /** The shortest description the submit button accepts. */
  const MinDescriptionLength: nat := 20

  /** The motif buttons, in display order. */
  const Motifs: seq<string> := [
    "Plainte", "Réclamation", "Suggestion",
    "Demande d'information", "Problème technique", "Service client"]

  function Get(data: ComplaintData, field: Field): string {
    match field
    case Nom => data.nom
    case Prenom => data.prenom
    case Telephone => data.telephone
    case Motif => data.motif
    case Description => data.description
  }

  /** `updateFormData`: the named field takes the value, every other field keeps its own. */
  function Updated(data: ComplaintData, field: Field, value: string): (r: ComplaintData)
    ensures Get(r, field) == value
    ensures forall f :: f != field ==> Get(r, f) == Get(data, f)
  {
    match field
    case Nom => data.(nom := value)
    case Prenom => data.(prenom := value)
    case Telephone => data.(telephone := value)
    case Motif => data.(motif := value)
    case Description => data.(description := value)
  }

  /** `isFormValid`: the five fields are non-empty. */
  predicate IsFormValid(data: ComplaintData) {
    data.nom != "" && data.prenom != "" && data.telephone != "" &&
    data.motif != "" && data.description != ""
  }

  /**
   * A string's JavaScript `length`: UTF-16 code units, one for a character
   * of the Basic Multilingual Plane and two (a surrogate pair) for any
   * character above U+FFFF.
   */
  function Utf16Length(s: string): (n: nat)
    ensures |s| <= n <= 2 * |s|
  {
    if s == [] then 0
    else (if s[0] as int > 0xFFFF then 2 else 1) + Utf16Length(s[1..])
  }

  /** On text made only of Basic Multilingual Plane characters, `length` is the character count. */
  lemma {:induction false} BmpLengthIsCount(s: string)
    requires forall i :: 0 <= i < |s| ==> s[i] as int <= 0xFFFF
    ensures Utf16Length(s) == |s|
  {
    if s != [] {
      BmpLengthIsCount(s[1..]);
    }
  }

  /** `length` adds up over concatenation. */
  lemma {:induction false} Utf16LengthConcat(a: string, b: string)
    ensures Utf16Length(a + b) == Utf16Length(a) + Utf16Length(b)
  {
    if a == [] {
      assert a + b == b;
    } else {
      assert (a + b)[0] == a[0] && (a + b)[1..] == a[1..] + b;
      Utf16LengthConcat(a[1..], b);
    }
  }

  /** The submit button's enabling condition, with the minimum counted as `description.length`. */
  predicate CanSubmit(data: ComplaintData) {
    IsFormValid(data) && Utf16Length(data.description) >= MinDescriptionLength
  }

  /** The form is valid exactly when no field is empty. */
  lemma {:induction false} FormValidIffComplete(data: ComplaintData)
    ensures IsFormValid(data) <==> forall f :: Get(data, f) != ""
  {
    assert Get(data, Nom) == data.nom && Get(data, Prenom) == data.prenom;
    assert Get(data, Telephone) == data.telephone && Get(data, Motif) == data.motif;
    assert Get(data, Description) == data.description;
  }

  /**
   * Submission is possible exactly when the four short fields are filled
   * and the description is at least 20 UTF-16 code units long; the length
   * minimum subsumes the description's own non-emptiness check.
   */
  lemma SubmitIffFilledAndLongEnough(data: ComplaintData)
    ensures CanSubmit(data) <==>
      data.nom != "" && data.prenom != "" && data.telephone != "" && data.motif != "" &&
      Utf16Length(data.description) >= MinDescriptionLength
  {
  }

  /** A description shorter than the minimum keeps submission disabled whatever else is filled. */
  lemma ShortDescriptionBlocks(data: ComplaintData, text: string)
    requires Utf16Length(text) < MinDescriptionLength
    ensures !CanSubmit(Updated(data, Description, text))
  {
  }

  /**
   * Ten characters above U+FFFF already reach the minimum: each one counts
   * twice, so such a description, with the other fields filled, enables
   * submission.
   */
  lemma {:induction false} AstralCharactersCountTwice(data: ComplaintData, c: char)
    requires c as int > 0xFFFF
    requires data.nom != "" && data.prenom != "" && data.telephone != "" && data.motif != ""
    ensures Utf16Length(seq(10, _ => c)) == 20
    ensures CanSubmit(Updated(data, Description, seq(10, _ => c)))
  {
    var ten := seq(10, _ => c);
    var five := seq(5, _ => c);
    var one := [c];
    assert Utf16Length(one) == 2;
    Utf16LengthConcat(one, one);
    assert one + one + one + one + one == five;
    Utf16LengthConcat(one + one, one);
    Utf16LengthConcat(one + one + one, one);
    Utf16LengthConcat(one + one + one + one, one);
    assert five + five == ten;
    Utf16LengthConcat(five, five);
  }

  /** Every motif on offer is a non-empty label, so choosing one fills the motif field. */
  lemma MotifsNonEmpty()
    ensures |Motifs| == 6
    ensures forall i :: 0 <= i < |Motifs| ==> Motifs[i] != ""
  {
  }

  class ComplaintsForm {
    var formData: ComplaintData
    var loading: bool
    var success: bool

    constructor ()
      ensures formData == EmptyComplaint && !loading && !success
    {
      formData, loading, success := EmptyComplaint, false, false;
    }

    /** `updateFormData` from a text input. */
    method UpdateFormData(field: Field, value: string)
      modifies this
      ensures formData == Updated(old(formData), field, value)
      ensures loading == old(loading) && success == old(success)
    {
      formData := Updated(formData, field, value);
    }

    /** A click on the `i`-th motif button. */
    method ChooseMotif(i: nat)
      requires i < |Motifs|
      modifies this
      ensures formData == Updated(old(formData), Motif, Motifs[i])
      ensures formData.motif in Motifs && formData.motif != ""
      ensures loading == old(loading) && success == old(success)
    {
      formData := Updated(formData, Motif, Motifs[i]);
    }

    /** The submit button is enabled exactly when the form is valid and the description is long enough. */
    function SubmitEnabled(): (enabled: bool)
      reads this
      ensures enabled <==> (forall f :: Get(formData, f) != "") && Utf16Length(formData.description) >= MinDescriptionLength
    {
      FormValidIffComplete(formData);
      CanSubmit(formData)
    }

    /** `handleSubmit` up to the simulated call's delay. */
    method BeginSubmit()
      modifies this
      ensures loading && success == old(success) && formData == old(formData)
    {
      loading := true;
    }

    /** After the simulated call: loading ends and the acknowledgement is shown. */
    method AfterSubmitDelay()
      modifies this
      ensures !loading && success && formData == old(formData)
    {
      loading := false;
      success := true;
    }

    /** The whole submit: loading, then success, then the delayed navigation to the dashboard. */
    method HandleSubmit() returns (nav: Option<string>)
      modifies this
      ensures nav == Some("dashboard")
      ensures !loading && success && formData == old(formData)
    {
      BeginSubmit();
      AfterSubmitDelay();
      nav := Some("dashboard");
    }

    /** "Annuler" and the header's back arrow: the dashboard, with the form left as it is. */
    method Cancel() returns (nav: string)
      ensures nav == "dashboard"
    {
      nav := "dashboard";
    }
  }
}
