/**
 * The car-insurance purchase wizard: six steps in a fixed order, a presence
 * guard on leaving each step, a nested form record edited one field at a
 * time, the company price table, and the header's back action.
 */
module CarInsurance {
  import opened Wrappers
  import LinearSteps

  datatype Step = Comparison | Personal | Vehicle | Insurance | Summary | Payment

  /** The wizard's order. */
  const Steps: seq<Step> := [Comparison, Personal, Vehicle, Insurance, Summary, Payment]

  /** Position of a step in the wizard's order. */
  function Rank(s: Step): (k: nat)
    ensures k < |Steps| && Steps[k] == s
  {
    match s
    case Comparison => 0
    case Personal => 1
    case Vehicle => 2
    case Insurance => 3
    case Summary => 4
    case Payment => 5
  }

  lemma StepsDistinct()
    ensures LinearSteps.Distinct(Steps)
  {
  }

  /** `indexOf` on the step list finds each step at its rank. */
  lemma IndexIsRank(s: Step)
    ensures LinearSteps.IndexOf(Steps, s) == Rank(s)
  {
    StepsDistinct();
    LinearSteps.IndexOfDistinct(Steps, Rank(s));
  }

  /** `nextStep` goes to the following step, and stays put at the payment step. */
  lemma NextRank(s: Step)
    ensures Rank(LinearSteps.Next(Steps, s)) == if s == Payment then Rank(s) else Rank(s) + 1
  {
    StepsDistinct();
    LinearSteps.NextMovesOne(Steps, s);
    IndexIsRank(s);
    IndexIsRank(LinearSteps.Next(Steps, s));
  }

  /** `prevStep` goes to the preceding step, and stays put at the comparison step. */
  lemma PrevRank(s: Step)
    ensures Rank(LinearSteps.Prev(Steps, s)) == if s == Comparison then Rank(s) else Rank(s) - 1
  {
    StepsDistinct();
    LinearSteps.PrevMovesOne(Steps, s);
    IndexIsRank(s);
    IndexIsRank(LinearSteps.Prev(Steps, s));
  }

  // ---- companies -------------------------------------------------------

  /** An insurer on the comparison step; the price is the displayed string. */
  datatype Company = Company(name: string, price: string)

  const Companies: seq<Company> := [
    Company("NSIA Assurances", "45,000"),
    Company("SUNU Assurances", "42,000"),
    Company("SAHAM Assurance", "48,000")]

  /** `companies.find(c => c.name === name)?.price`: the price of the first company with that name. */
  function FindPrice(companies: seq<Company>, name: string): (r: Option<string>)
    ensures r.None? <==> forall c :: c in companies ==> c.name != name
    ensures r.Some? ==> Company(name, r.value) in companies
    ensures r.Some? ==> exists k :: 0 <= k < |companies| && companies[k] == Company(name, r.value) &&
                                    forall j :: 0 <= j < k ==> companies[j].name != name
  {
    if companies == [] then None
    else if companies[0].name == name then Some(companies[0].price)
    else FindPrice(companies[1..], name)
  }

  /** Every listed company is found with its own price, since no two share a name. */
  lemma {:induction false} CompanyPrice(i: nat)
    requires i < |Companies|
    ensures FindPrice(Companies, Companies[i].name) == Some(Companies[i].price)
  {
    var r := FindPrice(Companies, Companies[i].name);
    assert Companies[i] in Companies;
    assert r.Some?;
    assert forall c :: c in Companies && c.name == Companies[i].name ==> c == Companies[i];
  }

  // ---- form data -------------------------------------------------------

  datatype PersonalInfo = PersonalInfo(nom: string, prenom: string, usage: string)
  datatype VehicleInfo = VehicleInfo(
    marque: string, modele: string, puissance: string, plaque: string, energie: string, places: string)
  /** The registration-card photo is modelled by whether a file is attached. */
  datatype InsuranceInfo = InsuranceInfo(securite: string, duree: string, dateEffet: string, carteGrise: bool)
  datatype PaymentInfo = PaymentInfo(methodId: string)
  datatype FormData = FormData(
    personal: PersonalInfo, vehicle: VehicleInfo, insurance: InsuranceInfo, payment: PaymentInfo)

  const EmptyForm: FormData := FormData(
    PersonalInfo("", "", ""),
    VehicleInfo("", "", "", "", "", ""),
    InsuranceInfo("", "", "", false),
    PaymentInfo(""))

  /** The text fields `updateFormData` is called with, each naming its section and its key. */
  datatype Field =
    | Nom | Prenom | Usage
    | Marque | Modele | Puissance | Plaque | Energie | Places
    | Securite | Duree | DateEffet
    | PaymentMethod

  /** The step whose screen holds the input for a field. */
  function FieldStep(f: Field): Step {
    match f
    case Nom | Prenom | Usage => Personal
    case Marque | Modele | Puissance | Plaque | Energie | Places => Vehicle
    case Securite | Duree | DateEffet => Insurance
    case PaymentMethod => Payment
  }

  function Get(fd: FormData, f: Field): string {
    match f
    case Nom => fd.personal.nom
    case Prenom => fd.personal.prenom
    case Usage => fd.personal.usage
    case Marque => fd.vehicle.marque
    case Modele => fd.vehicle.modele
    case Puissance => fd.vehicle.puissance
    case Plaque => fd.vehicle.plaque
    case Energie => fd.vehicle.energie
    case Places => fd.vehicle.places
    case Securite => fd.insurance.securite
    case Duree => fd.insurance.duree
    case DateEffet => fd.insurance.dateEffet
    case PaymentMethod => fd.payment.methodId
  }

  /**
   * `updateFormData(section, field, value)`: that field of that section takes
   * the value; every other field, the photo and the other sections are kept.
   */
  function Updated(fd: FormData, f: Field, value: string): (r: FormData)
    ensures Get(r, f) == value
    ensures forall g :: g != f ==> Get(r, g) == Get(fd, g)
    ensures r.insurance.carteGrise == fd.insurance.carteGrise
    ensures FieldStep(f) != Personal ==> r.personal == fd.personal
    ensures FieldStep(f) != Vehicle ==> r.vehicle == fd.vehicle
    ensures FieldStep(f) != Insurance ==> r.insurance == fd.insurance
    ensures FieldStep(f) != Payment ==> r.payment == fd.payment
  {
    match f
    case Nom => fd.(personal := fd.personal.(nom := value))
    case Prenom => fd.(personal := fd.personal.(prenom := value))
    case Usage => fd.(personal := fd.personal.(usage := value))
    case Marque => fd.(vehicle := fd.vehicle.(marque := value))
    case Modele => fd.(vehicle := fd.vehicle.(modele := value))
    case Puissance => fd.(vehicle := fd.vehicle.(puissance := value))
    case Plaque => fd.(vehicle := fd.vehicle.(plaque := value))
    case Energie => fd.(vehicle := fd.vehicle.(energie := value))
    case Places => fd.(vehicle := fd.vehicle.(places := value))
    case Securite => fd.(insurance := fd.insurance.(securite := value))
    case Duree => fd.(insurance := fd.insurance.(duree := value))
    case DateEffet => fd.(insurance := fd.insurance.(dateEffet := value))
    case PaymentMethod => fd.(payment := fd.payment.(methodId := value))
  }

  // ---- guards ----------------------------------------------------------

  /**
   * Whether the forward button of a step is enabled. The summary step's
   * button has no condition; the payment step has no forward button (it
   * pays instead).
   */
  predicate CanLeave(s: Step, company: string, fd: FormData) {
    match s
    case Comparison => company != ""
    case Personal => fd.personal.nom != "" && fd.personal.prenom != "" && fd.personal.usage != ""
    case Vehicle =>
      fd.vehicle.marque != "" && fd.vehicle.modele != "" && fd.vehicle.puissance != "" &&
      fd.vehicle.plaque != "" && fd.vehicle.energie != "" && fd.vehicle.places != ""
    case Insurance =>
      fd.insurance.securite != "" && fd.insurance.duree != "" && fd.insurance.dateEffet != "" &&
      fd.insurance.carteGrise
    case Summary => true
    case Payment => false
  }

  /** The guard of every step before `s` holds. */
  predicate GuardsBefore(s: Step, company: string, fd: FormData) {
    forall t: Step :: Rank(t) < Rank(s) ==> CanLeave(t, company, fd)
  }

  /** A step's guard reads only the fields whose inputs that step shows. */
  lemma {:induction false} GuardReadsOwnFields(s: Step, company: string, fd: FormData, f: Field, value: string)
    requires FieldStep(f) != s
    ensures CanLeave(s, company, Updated(fd, f, value)) == CanLeave(s, company, fd)
  {
    var r := Updated(fd, f, value);
    match s
    case Comparison =>
    case Personal =>
      assert r.personal == fd.personal;
    case Vehicle =>
      assert r.vehicle == fd.vehicle;
    case Insurance =>
      assert r.insurance == fd.insurance;
    case Summary =>
    case Payment =>
  }

  /**
   * Reaching the payment step through the enabled buttons means a company
   * was chosen and every field of the personal, vehicle and insurance steps
   * is filled, photo included.
   */
  lemma {:induction false} PaymentMeansComplete(company: string, fd: FormData)
    requires GuardsBefore(Payment, company, fd)
    ensures company != ""
    ensures forall f :: FieldStep(f) != Payment ==> Get(fd, f) != ""
    ensures fd.insurance.carteGrise
  {
    assert CanLeave(Comparison, company, fd);
    assert CanLeave(Personal, company, fd);
    assert CanLeave(Vehicle, company, fd);
    assert CanLeave(Insurance, company, fd);
  }

  // ---- the wizard ------------------------------------------------------

  class CarInsurance {
    var currentStep: Step
    var selectedCompany: string
    var formData: FormData

    /** The chosen company, when there is one, is one of the listed companies. */
    ghost predicate Valid()
      reads this
    {
      selectedCompany == "" || exists i :: 0 <= i < |Companies| && Companies[i].name == selectedCompany
    }

    /** Every step before the current one has its guard satisfied. */
    ghost predicate Passed()
      reads this
    {
      GuardsBefore(currentStep, selectedCompany, formData)
    }

    constructor ()
      ensures currentStep == Comparison && selectedCompany == "" && formData == EmptyForm
      ensures Valid() && Passed()
    {
      currentStep, selectedCompany, formData := Comparison, "", EmptyForm;
    }

    /** `nextStep`: one step forward, none from the payment step. */
    method NextStep()
      modifies this
      ensures currentStep == LinearSteps.Next(Steps, old(currentStep))
      ensures Rank(currentStep) == if old(currentStep) == Payment then Rank(old(currentStep)) else Rank(old(currentStep)) + 1
      ensures selectedCompany == old(selectedCompany) && formData == old(formData)
    {
      NextRank(currentStep);
      currentStep := LinearSteps.Next(Steps, currentStep);
    }

    /** `prevStep`: one step back, none from the comparison step. */
    method PrevStep()
      modifies this
      ensures currentStep == LinearSteps.Prev(Steps, old(currentStep))
      ensures Rank(currentStep) == if old(currentStep) == Comparison then 0 else Rank(old(currentStep)) - 1
      ensures selectedCompany == old(selectedCompany) && formData == old(formData)
      ensures old(Passed()) ==> Passed()
    {
      PrevRank(currentStep);
      currentStep := LinearSteps.Prev(Steps, currentStep);
    }

    /** The forward button of the current step: `nextStep` when enabled, nothing when disabled. */
    method Continue()
      modifies this
      ensures CanLeave(old(currentStep), old(selectedCompany), old(formData)) ==>
        currentStep == LinearSteps.Next(Steps, old(currentStep))
      ensures !CanLeave(old(currentStep), old(selectedCompany), old(formData)) ==>
        currentStep == old(currentStep)
      ensures selectedCompany == old(selectedCompany) && formData == old(formData)
      ensures old(Passed()) ==> Passed()
    {
      if CanLeave(currentStep, selectedCompany, formData) {
        NextStep();
      }
    }

    /** A click on the `i`-th company card. */
    method SelectCompany(i: nat)
      requires i < |Companies|
      modifies this
      ensures selectedCompany == Companies[i].name
      ensures DisplayedPrice() == Some(Companies[i].price)
      ensures currentStep == old(currentStep) && formData == old(formData)
      ensures Valid()
      ensures currentStep == Comparison && old(Passed()) ==> Passed()
    {
      selectedCompany := Companies[i].name;
      CompanyPrice(i);
    }

    /** `updateFormData` from an input of the current step's screen. */
    method UpdateFormData(f: Field, value: string)
      modifies this
      ensures formData == Updated(old(formData), f, value)
      ensures currentStep == old(currentStep) && selectedCompany == old(selectedCompany)
      ensures FieldStep(f) == currentStep && old(Passed()) ==> Passed()
    {
      formData := Updated(formData, f, value);
      if FieldStep(f) == currentStep && old(Passed()) {
        forall t: Step | Rank(t) < Rank(currentStep)
          ensures CanLeave(t, selectedCompany, formData)
        {
          assert CanLeave(t, selectedCompany, old(formData));
          GuardReadsOwnFields(t, selectedCompany, old(formData), f, value);
        }
      }
    }

    /** The registration-card picker; `present` is false when it returns no file. */
    method SetCarteGrise(present: bool)
      modifies this
      ensures formData == old(formData).(insurance := old(formData).insurance.(carteGrise := present))
      ensures currentStep == old(currentStep) && selectedCompany == old(selectedCompany)
      ensures currentStep == Insurance && old(Passed()) ==> Passed()
    {
      formData := formData.(insurance := formData.insurance.(carteGrise := present));
    }

    /** The amount shown on the summary and payment steps. */
    function DisplayedPrice(): (r: Option<string>)
      reads this
      ensures r.Some? ==> Company(selectedCompany, r.value) in Companies
      ensures r.None? <==> forall c :: c in Companies ==> c.name != selectedCompany
    {
      FindPrice(Companies, selectedCompany)
    }

    /** The header's back arrow: the dashboard from the comparison step, `prevStep` elsewhere. */
    method Back() returns (nav: Option<string>)
      modifies this
      ensures old(currentStep) == Comparison ==> nav == Some("dashboard") && currentStep == Comparison
      ensures old(currentStep) != Comparison ==>
        nav == None && Rank(currentStep) == Rank(old(currentStep)) - 1
      ensures selectedCompany == old(selectedCompany) && formData == old(formData)
    {
      if currentStep == Comparison {
        nav := Some("dashboard");
      } else {
        PrevStep();
        nav := None;
      }
    }

    /** "Payer maintenant": disabled until a payment method is chosen, then the dashboard. */
    method Pay() returns (nav: Option<string>)
      ensures nav.Some? <==> formData.payment.methodId != ""
      ensures nav.Some? ==> nav.value == "dashboard"
    {
      nav := if formData.payment.methodId != "" then Some("dashboard") else None;
    }

    /** At the payment step, reached through the enabled buttons, a listed company's price is shown. */
    lemma PaymentShowsPrice()
      requires Valid() && Passed() && currentStep == Payment
      ensures DisplayedPrice().Some?
    {
      PaymentMeansComplete(selectedCompany, formData);
      var i :| 0 <= i < |Companies| && Companies[i].name == selectedCompany;
      CompanyPrice(i);
    }
  }
}
