/**
 * The education-insurance purchase wizard: five steps in a fixed order, a
 * presence guard on leaving each step, a nested form record edited one
 * field at a time, and the integer pricing rule. Multipliers 1, 1.8 and 2.5
 * are written in tenths (10, 18, 25), and `Math.round` on non-negative
 * values is rounding to the nearest integer with halves going up.
 */
module EducationInsurance {
  import opened Wrappers
  import LinearSteps

  datatype Step = Subscription | Formula | Duration | Verification | Payment

  /** The wizard's order. */
  const Steps: seq<Step> := [Subscription, Formula, Duration, Verification, Payment]

  /** Position of a step in the wizard's order. */
  function Rank(s: Step): (k: nat)
    ensures k < |Steps| && Steps[k] == s
  {
    match s
    case Subscription => 0
    case Formula => 1
    case Duration => 2
    case Verification => 3
    case Payment => 4
  }

  lemma StepsDistinct()
    ensures LinearSteps.Distinct(Steps)
  {
  }

  /** `indexOf` on the step list finds each step at its rank. */
  lemma IndexIsRank(s: Step)
    ensures LinearSteps.IndexOf(Steps, s) == Rank(s)
  {
    StepsDistinct();
    LinearSteps.IndexOfDistinct(Steps, Rank(s));
  }

  /** `nextStep` goes to the following step, and stays put at the payment step. */
  lemma NextRank(s: Step)
    ensures Rank(LinearSteps.Next(Steps, s)) == if s == Payment then Rank(s) else Rank(s) + 1
  {
    StepsDistinct();
    LinearSteps.NextMovesOne(Steps, s);
    IndexIsRank(s);
    IndexIsRank(LinearSteps.Next(Steps, s));
  }

  /** `prevStep` goes to the preceding step, and stays put at the subscription step. */
  lemma PrevRank(s: Step)
    ensures Rank(LinearSteps.Prev(Steps, s)) == if s == Subscription then Rank(s) else Rank(s) - 1
  {
    StepsDistinct();
    LinearSteps.PrevMovesOne(Steps, s);
    IndexIsRank(s);
    IndexIsRank(LinearSteps.Prev(Steps, s));
  }

  // ---- number parsing and rounding --------------------------------------

  predicate IsDigit(c: char) {
    '0' <= c <= '9'
  }

  /** `s.replace(',', '')`: a string pattern replaces only its first occurrence. */
  function RemoveFirstComma(s: string): (r: string)
    ensures ',' !in s ==> r == s
    ensures ',' in s ==> |r| == |s| - 1
    ensures ',' in s ==>
      var k := LinearSteps.IndexOf(s, ',');
      ',' !in r[..k] && r[..k] + [','] + r[k..] == s
  {
    var k := LinearSteps.IndexOf(s, ',');
    if k < 0 then s
    else
      var r := s[..k] + s[k + 1..];
      assert r[..k] == s[..k] && r[k..] == s[k + 1..];
      assert s == s[..k] + [','] + s[k + 1..];
      r
  }

  /** The longest prefix of `s` made of decimal digits. */
  function DigitPrefix(s: string): (p: string)
    ensures p <= s
    ensures forall i :: 0 <= i < |p| ==> IsDigit(p[i])
    ensures |p| < |s| ==> !IsDigit(s[|p|])
  {
    if s == [] || !IsDigit(s[0]) then []
    else [s[0]] + DigitPrefix(s[1..])
  }

  function DigitValue(c: char): (d: nat)
    requires IsDigit(c)
    ensures d <= 9
  {
    (c as int) - ('0' as int)
  }

  /** The value of a string of decimal digits, most significant first. */
  function DigitsValue(ds: string): nat
    requires forall i :: 0 <= i < |ds| ==> IsDigit(ds[i])
  {
    if ds == [] then 0
    else DigitsValue(ds[..|ds| - 1]) * 10 + DigitValue(ds[|ds| - 1])
  }

  /**
   * `parseInt(s)` for strings that begin with a digit: the value of the
   * leading run of digits; `None` stands for `NaN`.
   */
  function ParseInt(s: string): (r: Option<nat>)
    ensures r.None? <==> s == [] || !IsDigit(s[0])
  {
    var p := DigitPrefix(s);
    if p == [] then None else Some(DigitsValue(p))
  }

  /** Appending a digit shifts the value one decimal place and adds the digit. */
  lemma {:induction false} DigitsValueAppend(ds: string, c: char)
    requires forall i :: 0 <= i < |ds| ==> IsDigit(ds[i])
    requires IsDigit(c)
    ensures DigitsValue(ds + [c]) == DigitsValue(ds) * 10 + DigitValue(c)
  {
    assert (ds + [c])[..|ds|] == ds;
  }

  /** A string made only of digits parses to its whole value. */
  lemma {:induction false} ParseAllDigits(ds: string)
    requires ds != [] && forall i :: 0 <= i < |ds| ==> IsDigit(ds[i])
    ensures ParseInt(ds) == Some(DigitsValue(ds))
  {
    DigitPrefixAll(ds);
  }

  lemma {:induction false} DigitPrefixAll(ds: string)
    requires forall i :: 0 <= i < |ds| ==> IsDigit(ds[i])
    ensures DigitPrefix(ds) == ds
    decreases |ds|
  {
    if ds != [] {
      DigitPrefixAll(ds[1..]);
      assert [ds[0]] + ds[1..] == ds;
    }
  }

  /** Removing the first comma of `a + "," + b`, where `a` has none, gives `a + b`. */
  lemma {:induction false} RemoveCommaSplit(a: string, b: string)
    requires ',' !in a
    ensures RemoveFirstComma(a + [','] + b) == a + b
  {
    var s := a + [','] + b;
    var k := LinearSteps.IndexOf(s, ',');
    assert s[|a|] == ',';
    assert forall j :: 0 <= j < |a| ==> s[j] == a[j];
    assert forall j :: 0 <= j < k ==> s[..k][j] == s[j];
    assert s[..|a|] == a && s[|a| + 1..] == b;
  }

  /** `Math.round(a / b)` for `a >= 0`, `b > 0`: the nearest integer, halves going up. */
  function RoundDiv(a: nat, b: nat): (r: nat)
    requires b > 0
    ensures 2 * b * r <= 2 * a + b < 2 * b * (r + 1)
  {
    (2 * a + b) / (2 * b)
  }

  // ---- price tables ----------------------------------------------------

  /** A formula card; the price is the displayed string with its thousands comma. */
  datatype FormulaOffer = FormulaOffer(id: string, name: string, price: string)
  /** A duration card; `id` is the number of years, the multiplier is in tenths. */
  datatype DurationOffer = DurationOffer(id: string, years: string, tenths: nat)

  const Formulas: seq<FormulaOffer> := [
    FormulaOffer("cuivre", "Cuivre", "35,000"),
    FormulaOffer("bronze", "Bronze", "65,000"),
    FormulaOffer("argent", "Argent", "120,000"),
    FormulaOffer("or", "Or", "200,000")]

  const Durations: seq<DurationOffer> := [
    DurationOffer("5", "5 ans", 10),
    DurationOffer("10", "10 ans", 18),
    DurationOffer("15", "15 ans", 25)]

  const PaymentOptions: seq<string> := ["Paiement immédiat", "Paiement différé"]
  const Immediate: string := "Paiement immédiat"

  /** `formulas.find(f => f.id === id)`: the first formula with that id. */
  function FindFormula(offers: seq<FormulaOffer>, id: string): (r: Option<FormulaOffer>)
    ensures r.None? <==> forall f :: f in offers ==> f.id != id
    ensures r.Some? ==> r.value in offers && r.value.id == id
  {
    if offers == [] then None
    else if offers[0].id == id then Some(offers[0])
    else FindFormula(offers[1..], id)
  }

  /** `durations.find(d => d.id === id)`: the first duration with that id. */
  function FindDuration(offers: seq<DurationOffer>, id: string): (r: Option<DurationOffer>)
    ensures r.None? <==> forall d :: d in offers ==> d.id != id
    ensures r.Some? ==> r.value in offers && r.value.id == id
  {
    if offers == [] then None
    else if offers[0].id == id then Some(offers[0])
    else FindDuration(offers[1..], id)
  }

  /** `find` returns the first formula with the id: none before it has that id. */
  lemma {:induction false} FindFormulaFirst(offers: seq<FormulaOffer>, id: string)
    ensures FindFormula(offers, id).Some? ==>
              exists k :: 0 <= k < |offers| && offers[k] == FindFormula(offers, id).value &&
                          forall j :: 0 <= j < k ==> offers[j].id != id
  {
    if offers != [] && offers[0].id != id {
      FindFormulaFirst(offers[1..], id);
      if FindFormula(offers, id).Some? {
        var k :| 0 <= k < |offers[1..]| && offers[1..][k] == FindFormula(offers, id).value &&
                 forall j :: 0 <= j < k ==> offers[1..][j].id != id;
        assert offers[k + 1] == FindFormula(offers, id).value;
        assert forall j :: 0 <= j < k + 1 ==> offers[j].id != id by {
          forall j | 0 <= j < k + 1 ensures offers[j].id != id {
            if j > 0 { assert offers[j] == offers[1..][j - 1]; }
          }
        }
      }
    } else if offers != [] {
      assert offers[0] == FindFormula(offers, id).value;
    }
  }

  /** `find` returns the first duration with the id: none before it has that id. */
  lemma {:induction false} FindDurationFirst(offers: seq<DurationOffer>, id: string)
    ensures FindDuration(offers, id).Some? ==>
              exists k :: 0 <= k < |offers| && offers[k] == FindDuration(offers, id).value &&
                          forall j :: 0 <= j < k ==> offers[j].id != id
  {
    if offers != [] && offers[0].id != id {
      FindDurationFirst(offers[1..], id);
      if FindDuration(offers, id).Some? {
        var k :| 0 <= k < |offers[1..]| && offers[1..][k] == FindDuration(offers, id).value &&
                 forall j :: 0 <= j < k ==> offers[1..][j].id != id;
        assert offers[k + 1] == FindDuration(offers, id).value;
        assert forall j :: 0 <= j < k + 1 ==> offers[j].id != id by {
          forall j | 0 <= j < k + 1 ensures offers[j].id != id {
            if j > 0 { assert offers[j] == offers[1..][j - 1]; }
          }
        }
      }
    } else if offers != [] {
      assert offers[0] == FindDuration(offers, id).value;
    }
  }

  /** `parseInt(price.replace(',', ''))`. */
  function BasePrice(f: FormulaOffer): Option<nat> {
    ParseInt(RemoveFirstComma(f.price))
  }

  /** A price written `a,b` with digit groups `a` and `b` has base value `a` shifted past `b`'s digits, plus `b`. */
  lemma {:induction false} PriceValue(a: string, b: string, v: nat)
    requires a != [] && forall i :: 0 <= i < |a| ==> IsDigit(a[i])
    requires forall i :: 0 <= i < |b| ==> IsDigit(b[i])
    requires DigitsValue(a + b) == v
    ensures ParseInt(RemoveFirstComma(a + [','] + b)) == Some(v)
  {
    RemoveCommaSplit(a, b);
    ParseAllDigits(a + b);
  }

  /** `"000"` appended to a digit string multiplies its value by 1000. */
  lemma {:induction false} Thousands(a: string)
    requires forall i :: 0 <= i < |a| ==> IsDigit(a[i])
    ensures DigitsValue(a + "000") == DigitsValue(a) * 1000
  {
    DigitsValueAppend(a, '0');
    DigitsValueAppend(a + "0", '0');
    DigitsValueAppend(a + "00", '0');
    assert a + "0" + ['0'] == a + "00";
    assert a + "00" + ['0'] == a + "000";
  }

  /** A price written `a,000` parses, once its comma is removed, to `a` thousands. */
  lemma {:induction false} ThousandsPrice(a: string, v: nat)
    requires a != [] && forall i :: 0 <= i < |a| ==> IsDigit(a[i])
    requires DigitsValue(a) == v
    ensures ParseInt(RemoveFirstComma(a + [','] + "000")) == Some(v * 1000)
  {
    Thousands(a);
    PriceValue(a, "000", v * 1000);
  }

  /** The value of a two-digit string. */
  lemma {:induction false} TwoDigits(c: char, d: char)
    requires IsDigit(c) && IsDigit(d)
    ensures DigitsValue([c, d]) == DigitValue(c) * 10 + DigitValue(d)
  {
    DigitsValueAppend([c], d);
    assert [c] + [d] == [c, d];
  }

  lemma CuivreBase()
    ensures BasePrice(Formulas[0]) == Some(35000)
  {
    TwoDigits('3', '5');
    assert "35" + [','] + "000" == Formulas[0].price;
    ThousandsPrice("35", 35);
  }

  lemma BronzeBase()
    ensures BasePrice(Formulas[1]) == Some(65000)
  {
    TwoDigits('6', '5');
    assert "65" + [','] + "000" == Formulas[1].price;
    ThousandsPrice("65", 65);
  }

  lemma ArgentBase()
    ensures BasePrice(Formulas[2]) == Some(120000)
  {
    TwoDigits('1', '2');
    DigitsValueAppend("12", '0');
    assert "12" + ['0'] == "120";
    assert "120" + [','] + "000" == Formulas[2].price;
    ThousandsPrice("120", 120);
  }

  lemma OrBase()
    ensures BasePrice(Formulas[3]) == Some(200000)
  {
    TwoDigits('2', '0');
    DigitsValueAppend("20", '0');
    assert "20" + ['0'] == "200";
    assert "200" + [','] + "000" == Formulas[3].price;
    ThousandsPrice("200", 200);
  }

  /** Every listed formula's price parses to a base of at least 35000. */
  lemma ListedBasesParse(f: FormulaOffer)
    requires f in Formulas
    ensures BasePrice(f).Some? && BasePrice(f).value >= 35000
  {
    if f == Formulas[0] {
      CuivreBase();
    } else if f == Formulas[1] {
      BronzeBase();
    } else if f == Formulas[2] {
      ArgentBase();
    } else {
      assert f == Formulas[3];
      OrBase();
    }
  }

  /** The duration ids parse to 5, 10 and 15 years. */
  lemma DurationYears()
    ensures ParseInt(Durations[0].id) == Some(5)
    ensures ParseInt(Durations[1].id) == Some(10)
    ensures ParseInt(Durations[2].id) == Some(15)
  {
    ParseAllDigits("5");
    TwoDigits('1', '0');
    ParseAllDigits("10");
    TwoDigits('1', '5');
    ParseAllDigits("15");
  }

  /** Looking a listed formula up by its id finds that formula, since ids are distinct. */
  lemma {:induction false} FindListedFormula(i: nat)
    requires i < |Formulas|
    ensures FindFormula(Formulas, Formulas[i].id) == Some(Formulas[i])
  {
    assert Formulas[i] in Formulas;
    assert forall f :: f in Formulas && f.id == Formulas[i].id ==> f == Formulas[i];
  }

  /** Looking a listed duration up by its id finds that duration, since ids are distinct. */
  lemma {:induction false} FindListedDuration(j: nat)
    requires j < |Durations|
    ensures FindDuration(Durations, Durations[j].id) == Some(Durations[j])
  {
    assert Durations[j] in Durations;
    assert forall d :: d in Durations && d.id == Durations[j].id ==> d == Durations[j];
  }

  // ---- pricing ---------------------------------------------------------

  /**
   * `getTotalPrice`: the base price times the duration multiplier, rounded;
   * 0 unless both the formula and the duration are selected. A price that
   * does not parse would give `NaN`; it gives 0 here, and `ListedBasesParse`
   * shows no listed formula has one.
   */
  function TotalPrice(formule: string, duree: string): (total: nat)
    ensures FindFormula(Formulas, formule).None? || FindDuration(Durations, duree).None? ==> total == 0
    ensures FindFormula(Formulas, formule).Some? && FindDuration(Durations, duree).Some? &&
            BasePrice(FindFormula(Formulas, formule).value).Some? ==>
      var b := BasePrice(FindFormula(Formulas, formule).value).value;
      var t := FindDuration(Durations, duree).value.tenths;
      20 * total <= 2 * (b * t) + 10 < 20 * (total + 1)
  {
    match FindFormula(Formulas, formule)
    case None => 0
    case Some(f) =>
      match FindDuration(Durations, duree)
      case None => 0
      case Some(d) =>
        match BasePrice(f)
        case None => 0
        case Some(b) => TenthsRounded(b, d.tenths)
  }

  /** A price times a multiplier in tenths, rounded to the nearest integer, halves up. */
  function TenthsRounded(b: nat, t: nat): (total: nat)
    ensures 20 * total <= 2 * (b * t) + 10 < 20 * (total + 1)
  {
    RoundDiv(b * t, 10)
  }

  /**
   * The monthly amount: the total over the number of months, rounded;
   * `None` where the duration does not parse to a positive number of years
   * (the division would give `NaN` or `Infinity`).
   */
  function MonthlyAmount(total: nat, duree: string): (r: Option<nat>)
    ensures r.Some? <==> ParseInt(duree).Some? && ParseInt(duree).value > 0
    ensures r.Some? ==>
      var months := ParseInt(duree).value * 12;
      2 * months * r.value <= 2 * total + months < 2 * months * (r.value + 1)
  {
    var years := ParseInt(duree);
    if years.None? || years.value == 0 then None
    else Some(RoundDiv(total, years.value * 12))
  }

  /**
   * The savings percentage on a duration card, `Math.round((2 - m) * 100)`
   * when the multiplier `m` is below 2, else 0; exact in tenths.
   */
  function Savings(d: DurationOffer): (pct: nat)
    ensures pct > 0 <==> d.tenths < 20
    ensures d.tenths < 20 ==> pct == 100 * (20 - d.tenths) / 10
  {
    if d.tenths < 20 then (20 - d.tenths) * 10 else 0
  }

  /** The amount on the payment step: the total when paying at once, otherwise the first monthly instalment. */
  function PaymentAmount(formule: string, duree: string, paiement: string): (r: Option<nat>)
    ensures paiement == Immediate ==> r == Some(TotalPrice(formule, duree))
    ensures paiement != Immediate ==> r == MonthlyAmount(TotalPrice(formule, duree), duree)
  {
    var total := TotalPrice(formule, duree);
    if paiement == Immediate then Some(total) else MonthlyAmount(total, duree)
  }

  /** When the base times the multiplier is a whole number of tens, the total is exactly that many. */
  lemma {:induction false} TotalFromParts(formule: string, duree: string, b: nat, m: nat)
    requires FindFormula(Formulas, formule).Some? && FindDuration(Durations, duree).Some?
    requires BasePrice(FindFormula(Formulas, formule).value) == Some(b)
    requires b * FindDuration(Durations, duree).value.tenths == 10 * m
    ensures TotalPrice(formule, duree) == m
  {
    var total := TotalPrice(formule, duree);
    assert 20 * total <= 20 * m + 10 < 20 * (total + 1);
  }

  /** A formula whose base is `k` thousands gives exact totals with every duration. */
  lemma {:induction false} TotalsExactWith(i: nat, j: nat, k: nat)
    requires i < |Formulas| && j < |Durations|
    requires BasePrice(Formulas[i]) == Some(1000 * k)
    ensures TotalPrice(Formulas[i].id, Durations[j].id) * 10 == 1000 * k * Durations[j].tenths
  {
    FindListedFormula(i);
    FindListedDuration(j);
    var t := Durations[j].tenths;
    var m := 100 * k * t;
    ThousandsTimesTenths(k, t);
    TotalFromParts(Formulas[i].id, Durations[j].id, 1000 * k, m);
    assert TotalPrice(Formulas[i].id, Durations[j].id) == m;
  }

  /** Regrouping the factors of a base of `k` thousands times `t` tenths. */
  lemma ThousandsTimesTenths(k: nat, t: nat)
    ensures (1000 * k) * t == 10 * (100 * k * t)
    ensures (100 * k * t) * 10 == 1000 * k * t
  {
  }

  /** Every total is exact: no listed price times a listed multiplier needs rounding. */
  lemma {:induction false} TotalsExact(i: nat, j: nat)
    requires i < |Formulas| && j < |Durations|
    ensures BasePrice(Formulas[i]).Some?
    ensures TotalPrice(Formulas[i].id, Durations[j].id) * 10 ==
      BasePrice(Formulas[i]).value * Durations[j].tenths
  {
    if i == 0 {
      CuivreBase();
      TotalsExactWith(i, j, 35);
    } else if i == 1 {
      BronzeBase();
      TotalsExactWith(i, j, 65);
    } else if i == 2 {
      ArgentBase();
      TotalsExactWith(i, j, 120);
    } else {
      OrBase();
      TotalsExactWith(i, j, 200);
    }
  }

  /** Argent over 10 years costs 216000 in total. */
  lemma ArgentTenYearsTotal()
    ensures TotalPrice(Formulas[2].id, Durations[1].id) == 216000
  {
    TotalsExact(2, 1);
    ArgentBase();
  }

  /** 216000 over 10 years is 1800 a month. */
  lemma ArgentTenYearsMonthly()
    ensures MonthlyAmount(216000, Durations[1].id) == Some(1800)
  {
    DurationYears();
  }

  /** Argent over 10 years: 216000 paid at once, or a first instalment of 1800. */
  lemma ArgentTenYearsPayment()
    ensures PaymentAmount(Formulas[2].id, Durations[1].id, PaymentOptions[0]) == Some(216000)
    ensures PaymentAmount(Formulas[2].id, Durations[1].id, PaymentOptions[1]) == Some(1800)
  {
    ArgentTenYearsTotal();
    ArgentTenYearsMonthly();
  }

  /** The savings shown on the three duration cards: 100, 20 and 0. */
  lemma SavingsShown()
    ensures Savings(Durations[0]) == 100
    ensures Savings(Durations[1]) == 20
    ensures Savings(Durations[2]) == 0
  {
  }

  /**
   * Savings measured against buying the 5-year contract again for every
   * five years covered: the reference multiplier for `years` is `2 * years`
   * tenths, and the percentage saved is rounded like the displayed one.
   */
  function ProportionalSavings(years: nat, tenths: nat): nat
    requires years > 0
  {
    if tenths < 2 * years then RoundDiv(100 * (2 * years - tenths), 2 * years) else 0
  }

  /** Measured proportionally, the listed durations save 0, 10 and 17 percent: more the longer the contract. */
  lemma ProportionalSavingsGrow()
    ensures ProportionalSavings(5, Durations[0].tenths) == 0
    ensures ProportionalSavings(10, Durations[1].tenths) == 10
    ensures ProportionalSavings(15, Durations[2].tenths) == 17
    ensures ProportionalSavings(5, Durations[0].tenths) <= ProportionalSavings(10, Durations[1].tenths)
              <= ProportionalSavings(15, Durations[2].tenths)
  {
  }

  // ---- form data -------------------------------------------------------

  datatype PersonalInfo = PersonalInfo(nom: string, prenom: string, telephone: string, beneficiaire: string)
  datatype ContractInfo = ContractInfo(formule: string, duree: string, paiement: string)
  datatype FormData = FormData(personal: PersonalInfo, contract: ContractInfo)

  const EmptyForm: FormData := FormData(PersonalInfo("", "", "", ""), ContractInfo("", "", ""))

  /** The fields `updateFormData` is called with, each naming its section and its key. */
  datatype Field = Nom | Prenom | Telephone | Beneficiaire | Formule | Duree | Paiement

  /** The step whose screen holds the input for a field. */
  function FieldStep(f: Field): Step {
    match f
    case Nom | Prenom | Telephone | Beneficiaire => Subscription
    case Formule => Formula
    case Duree => Duration
    case Paiement => Verification
  }

  function Get(fd: FormData, f: Field): string {
    match f
    case Nom => fd.personal.nom
    case Prenom => fd.personal.prenom
    case Telephone => fd.personal.telephone
    case Beneficiaire => fd.personal.beneficiaire
    case Formule => fd.contract.formule
    case Duree => fd.contract.duree
    case Paiement => fd.contract.paiement
  }

  /**
   * `updateFormData(section, field, value)`: that field of that section takes
   * the value; every other field and the other section are kept.
   */
  function Updated(fd: FormData, f: Field, value: string): (r: FormData)
    ensures Get(r, f) == value
    ensures forall g :: g != f ==> Get(r, g) == Get(fd, g)
    ensures FieldStep(f) != Subscription ==> r.personal == fd.personal
    ensures FieldStep(f) == Subscription ==> r.contract == fd.contract
  {
    match f
    case Nom => fd.(personal := fd.personal.(nom := value))
    case Prenom => fd.(personal := fd.personal.(prenom := value))
    case Telephone => fd.(personal := fd.personal.(telephone := value))
    case Beneficiaire => fd.(personal := fd.personal.(beneficiaire := value))
    case Formule => fd.(contract := fd.contract.(formule := value))
    case Duree => fd.(contract := fd.contract.(duree := value))
    case Paiement => fd.(contract := fd.contract.(paiement := value))
  }

  // ---- guards ----------------------------------------------------------

  /**
   * Whether the forward button of a step is enabled; the payment step has
   * no forward button (it finalises instead).
   */
  predicate CanLeave(s: Step, fd: FormData) {
    match s
    case Subscription =>
      fd.personal.nom != "" && fd.personal.prenom != "" &&
      fd.personal.telephone != "" && fd.personal.beneficiaire != ""
    case Formula => fd.contract.formule != ""
    case Duration => fd.contract.duree != ""
    case Verification => fd.contract.paiement != ""
    case Payment => false
  }

  /** The guard of every step before `s` holds. */
  predicate GuardsBefore(s: Step, fd: FormData) {
    forall t: Step :: Rank(t) < Rank(s) ==> CanLeave(t, fd)
  }

  /** A step's guard reads only the fields whose inputs that step shows. */
  lemma {:induction false} GuardReadsOwnFields(s: Step, fd: FormData, f: Field, value: string)
    requires FieldStep(f) != s
    ensures CanLeave(s, Updated(fd, f, value)) == CanLeave(s, fd)
  {
    var r := Updated(fd, f, value);
    match s
    case Subscription =>
      assert r.personal == fd.personal;
    case Formula =>
      assert Get(r, Formule) == Get(fd, Formule);
    case Duration =>
      assert Get(r, Duree) == Get(fd, Duree);
    case Verification =>
      assert Get(r, Paiement) == Get(fd, Paiement);
    case Payment =>
  }

  /** Reaching the payment step through the enabled buttons means every field is filled. */
  lemma {:induction false} PaymentMeansComplete(fd: FormData)
    requires GuardsBefore(Payment, fd)
    ensures forall f :: Get(fd, f) != ""
  {
    assert CanLeave(Subscription, fd);
    assert CanLeave(Formula, fd);
    assert CanLeave(Duration, fd);
    assert CanLeave(Verification, fd);
  }

  lemma {:induction false} ProductAtLeast(b: nat, t: nat)
    requires b >= 35000 && t >= 10
    ensures b * t >= 350000
  {
    assert b * t == b * (t - 10) + b * 10;
  }

  /** A selected formula and duration give a total of at least 35000. */
  lemma {:induction false} SelectedTotal(formule: string, duree: string)
    requires FindFormula(Formulas, formule).Some? && FindDuration(Durations, duree).Some?
    ensures TotalPrice(formule, duree) >= 35000
  {
    var f := FindFormula(Formulas, formule).value;
    var d := FindDuration(Durations, duree).value;
    ListedBasesParse(f);
    assert d.tenths >= 10;
    ProductAtLeast(BasePrice(f).value, d.tenths);
  }

  /** A selected duration always yields a payment amount, whichever way of paying is chosen. */
  lemma {:induction false} SelectedAmount(formule: string, duree: string, paiement: string)
    requires FindDuration(Durations, duree).Some?
    ensures PaymentAmount(formule, duree, paiement).Some?
  {
    var d := FindDuration(Durations, duree).value;
    DurationYears();
    assert d == Durations[0] || d == Durations[1] || d == Durations[2];
  }

  // ---- the wizard ------------------------------------------------------

  class EducationInsurance {
    var currentStep: Step
    var formData: FormData

    /** The chosen formula, duration and payment mode, when set, are ones the cards offer. */
    ghost predicate Valid()
      reads this
    {
      (formData.contract.formule == "" || FindFormula(Formulas, formData.contract.formule).Some?) &&
      (formData.contract.duree == "" || FindDuration(Durations, formData.contract.duree).Some?) &&
      (formData.contract.paiement == "" || formData.contract.paiement in PaymentOptions)
    }

    /** Every step before the current one has its guard satisfied. */
    ghost predicate Passed()
      reads this
    {
      GuardsBefore(currentStep, formData)
    }

    constructor ()
      ensures currentStep == Subscription && formData == EmptyForm
      ensures Valid() && Passed()
    {
      currentStep, formData := Subscription, EmptyForm;
    }

    /** `nextStep`: one step forward, none from the payment step. */
    method NextStep()
      modifies this
      ensures currentStep == LinearSteps.Next(Steps, old(currentStep))
      ensures Rank(currentStep) == if old(currentStep) == Payment then Rank(old(currentStep)) else Rank(old(currentStep)) + 1
      ensures formData == old(formData)
    {
      NextRank(currentStep);
      currentStep := LinearSteps.Next(Steps, currentStep);
    }

    /** `prevStep`: one step back, none from the subscription step. */
    method PrevStep()
      modifies this
      ensures currentStep == LinearSteps.Prev(Steps, old(currentStep))
      ensures Rank(currentStep) == if old(currentStep) == Subscription then 0 else Rank(old(currentStep)) - 1
      ensures formData == old(formData)
      ensures old(Passed()) ==> Passed()
    {
      PrevRank(currentStep);
      currentStep := LinearSteps.Prev(Steps, currentStep);
    }

    /** The forward button of the current step: `nextStep` when enabled, nothing when disabled. */
    method Continue()
      modifies this
      ensures CanLeave(old(currentStep), old(formData)) ==> currentStep == LinearSteps.Next(Steps, old(currentStep))
      ensures !CanLeave(old(currentStep), old(formData)) ==> currentStep == old(currentStep)
      ensures formData == old(formData)
      ensures old(Passed()) ==> Passed()
    {
      if CanLeave(currentStep, formData) {
        NextStep();
      }
    }

    /** `updateFormData` from an input of the current step's screen. */
    method UpdateFormData(f: Field, value: string)
      modifies this
      ensures formData == Updated(old(formData), f, value)
      ensures currentStep == old(currentStep)
      ensures FieldStep(f) == currentStep && old(Passed()) ==> Passed()
      ensures FieldStep(f) == Subscription && old(Valid()) ==> Valid()
    {
      formData := Updated(formData, f, value);
      if FieldStep(f) == currentStep && old(Passed()) {
        forall t: Step | Rank(t) < Rank(currentStep)
          ensures CanLeave(t, formData)
        {
          assert CanLeave(t, old(formData));
          GuardReadsOwnFields(t, old(formData), f, value);
        }
      }
    }

    /** A click on the `i`-th formula card. */
    method ChooseFormula(i: nat)
      requires i < |Formulas|
      modifies this
      ensures formData == Updated(old(formData), Formule, Formulas[i].id)
      ensures FindFormula(Formulas, formData.contract.formule) == Some(Formulas[i])
      ensures currentStep == old(currentStep)
      ensures old(Valid()) ==> Valid()
      ensures currentStep == Formula && old(Passed()) ==> Passed()
    {
      UpdateFormData(Formule, Formulas[i].id);
      FindListedFormula(i);
    }

    /** A click on the `j`-th duration card. */
    method ChooseDuration(j: nat)
      requires j < |Durations|
      modifies this
      ensures formData == Updated(old(formData), Duree, Durations[j].id)
      ensures FindDuration(Durations, formData.contract.duree) == Some(Durations[j])
      ensures currentStep == old(currentStep)
      ensures old(Valid()) ==> Valid()
      ensures currentStep == Duration && old(Passed()) ==> Passed()
    {
      UpdateFormData(Duree, Durations[j].id);
      FindListedDuration(j);
    }

    /** A click on the `k`-th payment-mode button. */
    method ChoosePaiement(k: nat)
      requires k < |PaymentOptions|
      modifies this
      ensures formData == Updated(old(formData), Paiement, PaymentOptions[k])
      ensures currentStep == old(currentStep)
      ensures old(Valid()) ==> Valid()
      ensures currentStep == Verification && old(Passed()) ==> Passed()
    {
      UpdateFormData(Paiement, PaymentOptions[k]);
    }

    /** `getTotalPrice` on the current selection. */
    function Total(): (total: nat)
      reads this
      ensures FindFormula(Formulas, formData.contract.formule).None? ==> total == 0
      ensures FindDuration(Durations, formData.contract.duree).None? ==> total == 0
    {
      TotalPrice(formData.contract.formule, formData.contract.duree)
    }

    /** The amount on the payment step, by the chosen payment mode. */
    function Amount(): Option<nat>
      reads this
    {
      PaymentAmount(formData.contract.formule, formData.contract.duree, formData.contract.paiement)
    }

    /** At the payment step, reached through the enabled buttons, a total of at least 35000 and an amount are shown. */
    lemma PaymentShowsAmount()
      requires Valid() && Passed() && currentStep == Payment
      ensures Total() >= 35000
      ensures Amount().Some?
    {
      PaymentMeansComplete(formData);
      assert Get(formData, Formule) != "" && Get(formData, Duree) != "";
      SelectedTotal(formData.contract.formule, formData.contract.duree);
      SelectedAmount(formData.contract.formule, formData.contract.duree, formData.contract.paiement);
    }

    /** The header's back arrow: the dashboard from the subscription step, `prevStep` elsewhere. */
    method Back() returns (nav: Option<string>)
      modifies this
      ensures old(currentStep) == Subscription ==> nav == Some("dashboard") && currentStep == Subscription
      ensures old(currentStep) != Subscription ==>
        nav == None && Rank(currentStep) == Rank(old(currentStep)) - 1
      ensures formData == old(formData)
    {
      if currentStep == Subscription {
        nav := Some("dashboard");
      } else {
        PrevStep();
        nav := None;
      }
    }

    /** "Annuler" on the subscription step: the dashboard. */
    method Cancel() returns (nav: string)
      ensures nav == "dashboard"
    {
      nav := "dashboard";
    }

    /** "Finaliser le contrat" on the payment step: the dashboard, with no further condition. */
    method Finalize() returns (nav: string)
      ensures nav == "dashboard"
    {
      nav := "dashboard";
    }
  }
}
