# Fractalis insurance portal — a Dafny model of its screen logic

The portal is a client-side insurance application. A user logs in (or
registers, or resets a password) with a phone number and a one-time code,
then reaches a dashboard. From there they can buy car or education insurance
through step-by-step wizards, file an accident claim or a complaint, or get
in touch by phone for travel and home cover. Everything runs in the browser
against a mock session store.

This project models that logic as it is written:

- **`AuthContext`**: the mock session store (`AuthProvider`). It holds the
  current user and the copy persisted under the key `fractalis_user`. It
  also holds the fixed credential and one-time-code predicates.
- **`OtpInput`**: the six-cell code widget. Cell acceptance, focus movement,
  auto-submission, the resend countdown and the manual verify button.
- **`LoginPage`, `RegisterPage`, `ForgotPasswordPage`**: the three
  authentication screens. Each is a short state machine over `loading`,
  `error`, `step` and navigation. Every asynchronous handler is split at its
  `await`:
  - `Begin…` is the part before the call.
  - `After…` is the continuation for each way the call can settle
    (`Settled` = a value or a throw).
  - `Handle…` runs the whole handler against the mock store.
- **`CarInsurance`, `EducationInsurance`**: the two purchase wizards. Each
  has a fixed step list walked with `indexOf` ± 1 (`LinearSteps`), a guard on
  leaving each step, field-by-field form updates, and the price lookup. The
  education wizard also has its integer pricing rule, with multipliers in
  tenths.
- **`ClaimsForm`, `ComplaintsForm`**: the two lead-capture forms. Each has a
  validity predicate, single-field updates and the submit sequence.
- **`App`**: the router, which switches on a screen name.
- **`ContactRedirect`**: the texts and link builders of the contact page.

Navigation (`onNavigate(x)`) appears as a returned `Some(x)` (or `x`).

## Model

| member | source | states |
|---|---|---|
| LinearSteps.IndexOf | src/components/insurance/CarInsurance.tsx:79 | `indexOf`: -1 exactly when the step is absent, otherwise a position holding it with no earlier occurrence |
| LinearSteps.Next | src/components/insurance/CarInsurance.tsx:77-83 | `nextStep`: the step after the current one, itself at the last step; characterised by `NextMovesOne` and `PrevAfterNext` |
| LinearSteps.Prev | src/components/insurance/CarInsurance.tsx:85-91 | `prevStep`: the step before the current one, itself at the first step; characterised by `PrevMovesOne` and `NextAfterPrev` |
| LinearSteps.IndexOfDistinct | src/components/insurance/CarInsurance.tsx:79 | in a list without repeats, `indexOf` finds every element at its own position |
| LinearSteps.NextMovesOne | src/components/insurance/CarInsurance.tsx:77-83 | `nextStep` moves the index up by one, and not past the last step |
| LinearSteps.PrevMovesOne | src/components/insurance/CarInsurance.tsx:85-91 | `prevStep` moves the index down by one, and not below the first step |
| LinearSteps.PrevAfterNext | src/components/insurance/EducationInsurance.tsx:86-100 | forward then back returns to the starting step, except at the last step |
| LinearSteps.NextAfterPrev | src/components/insurance/EducationInsurance.tsx:86-100 | back then forward returns to the starting step, except at the first step |
| AuthContext.MockUser | src/contexts/AuthContext.tsx:48-53 | the user a login creates: id '1', KOUADIO, Jean, with the given telephone |
| AuthContext.NewUser | src/contexts/AuthContext.tsx:68-73 | the registered user copies nom, prenom and telephone, and takes the supplied id |
| AuthContext.Restored | src/contexts/AuthContext.tsx:34-40 | startup restores a user exactly when the key is stored, and restores the stored record |
| AuthContext.VerifyOtp | src/contexts/AuthContext.tsx:88-92 | true iff the code is "123456", which has six digits |
| AuthContext.SendOtp | src/contexts/AuthContext.tsx:94-98 | always true |
| AuthContext.ResetPassword | src/contexts/AuthContext.tsx:100-104 | true iff the code would pass `verifyOTP`, whatever the number and password |
| AuthContext.RestartAfterLogin | src/contexts/AuthContext.tsx:34-56 | restoring right after a login yields the user the login set |
| AuthContext.RestartAfterLogout | src/contexts/AuthContext.tsx:83-86 | restoring after a logout yields no user |
| AuthContext.AuthProvider.constructor | src/contexts/AuthContext.tsx:31-40 | the user is whatever the storage holds under the key, and the store starts synced |
| AuthContext.AuthProvider.Login | src/contexts/AuthContext.tsx:42-61 | succeeds iff telephone and password are non-empty; success sets and persists the mock user; failure changes neither user nor storage |
| AuthContext.AuthProvider.Register | src/contexts/AuthContext.tsx:63-81 | succeeds iff the conditions are accepted; success sets and persists the new user; failure changes nothing |
| AuthContext.AuthProvider.Logout | src/contexts/AuthContext.tsx:83-86 | the user becomes null and only the session key is removed from storage |
| OtpInput.Accepts | src/components/auth/OTPInput.tsx:24 | the change guard: at most one character, digits only; used by `AfterChange` and `ClearingNeverCompletes` |
| OtpInput.Joined | src/components/auth/OTPInput.tsx:35 | `otp.join('')`; characterised by `JoinedSingles` and `JoinedFullLength` |
| OtpInput.AllFilled | src/components/auth/OTPInput.tsx:35 | `otp.every(digit => digit)`; tied to the join's length by `JoinedFullLength` |
| OtpInput.Completion | src/components/auth/OTPInput.tsx:35-37 | the code passed to `onComplete`; characterised by `CompletionExactlyWhenFull` |
| OtpInput.EmptyCells | src/components/auth/OTPInput.tsx:12 | six empty cells |
| OtpInput.JoinedSingles | src/components/auth/OTPInput.tsx:35-36 | joining one-digit cells gives one character per cell, in order |
| OtpInput.JoinedFullLength | src/components/auth/OTPInput.tsx:35 | for cells of at most one character, the join has length 6 iff every cell is non-empty |
| OtpInput.AfterChange | src/components/auth/OTPInput.tsx:24-27 | a value longer than one character or with a non-digit leaves every cell unchanged; an accepted one is written to cell `index` only |
| OtpInput.FocusAfterChange | src/components/auth/OTPInput.tsx:30-32 | focus moves to `index + 1` exactly when an accepted, non-empty value lands in a cell before the last; otherwise it stays |
| OtpInput.AfterChangeWellFormed | src/components/auth/OTPInput.tsx:24-27 | cells stay empty or a single digit |
| OtpInput.CompletionExactlyWhenFull | src/components/auth/OTPInput.tsx:35-37 | `onComplete` fires iff the accepted change leaves all six cells filled, and then with the six digits in cell order |
| OtpInput.ClearingNeverCompletes | src/components/auth/OTPInput.tsx:24-37 | an empty value is accepted, clears the cell and never fires `onComplete` |
| OtpInput.VerifyEnabledIffCodeComplete | src/components/auth/OTPInput.tsx:113 | no cell is empty iff the joined code has six characters |
| OtpInput.TypingFrom | src/components/auth/OTPInput.tsx:23-37 | typing the remaining digits of a code after a filled prefix fires `onComplete` once, at the sixth digit |
| OtpInput.TypingSixDigitsCompletesOnce | src/components/auth/OTPInput.tsx:23-37 | typing six digits into empty cells fires `onComplete` exactly once, with those digits |
| OtpInput.OtpInput.constructor | src/components/auth/OTPInput.tsx:12-13 | six empty cells, focus on the first, countdown at 30 |
| OtpInput.OtpInput.HandleChange | src/components/auth/OTPInput.tsx:23-39 | the cells, the focus and the submitted code are those of `AfterChange`, `FocusAfterChange` and `Completion`: focus moves to `index + 1` iff an accepted non-empty value lands before the last cell; the countdown is untouched |
| OtpInput.OtpInput.HandleKeyDown | src/components/auth/OTPInput.tsx:41-45 | Backspace on an empty cell with `index > 0` moves focus to `index - 1`; anything else keeps focus |
| OtpInput.OtpInput.Tick | src/components/auth/OTPInput.tsx:16-21 | the countdown drops by one while positive and never goes below 0 |
| OtpInput.OtpInput.ResendOffered | src/components/auth/OTPInput.tsx:99-108 | resend is offered iff the countdown is 0 |
| OtpInput.OtpInput.HandleResend | src/components/auth/OTPInput.tsx:47-53 | with a callback: request sent, countdown back to 30, all cells cleared; without one: nothing changes |
| OtpInput.OtpInput.ManualVerify | src/components/auth/OTPInput.tsx:111-113 | disabled while a cell is empty; otherwise submits the six digits in cell order |
| ContactRedirect.Title | src/components/ContactRedirect.tsx:13-15 | `getTitle`; its two forms are stated by `NonVoyageIsHome` |
| ContactRedirect.Icon | src/components/ContactRedirect.tsx:17-19 | `getIcon`; its two forms are stated by `NonVoyageIsHome` |
| ContactRedirect.Description | src/components/ContactRedirect.tsx:21-25 | `getDescription`; its two forms are stated by `NonVoyageIsHome` |
| ContactRedirect.IsWhitespace | src/components/ContactRedirect.tsx:35 | the characters `\s` matches in JavaScript, used by `StripWhitespace` |
| ContactRedirect.WhatsAppUrl | src/components/ContactRedirect.tsx:33-36 | `handleWhatsApp`'s link; its shape is stated by `WhatsAppUrlShape` |
| ContactRedirect.NonVoyageIsHome | src/components/ContactRedirect.tsx:13-25 | title, icon and description depend only on the type; any type other than 'voyage' gets the home texts, which differ from the travel ones |
| ContactRedirect.CallTarget | src/components/ContactRedirect.tsx:29-31 | "tel:" followed by the phone number unchanged |
| ContactRedirect.StripWhitespace | src/components/ContactRedirect.tsx:35 | `replace(/\s/g, '')`: the result has no whitespace, is never longer, holds only characters of the input, and keeps every non-whitespace character |
| ContactRedirect.StripClean | src/components/ContactRedirect.tsx:35 | a string without whitespace is unchanged |
| ContactRedirect.StripIdempotent | src/components/ContactRedirect.tsx:35 | stripping twice equals stripping once |
| ContactRedirect.StripConcat | src/components/ContactRedirect.tsx:35 | stripping distributes over concatenation |
| ContactRedirect.WhatsAppNumber | src/components/ContactRedirect.tsx:27-35 | the link's number part is "+225XXXXXXXXXX", the number without spaces |
| ContactRedirect.Message | src/components/ContactRedirect.tsx:34 | the pre-filled message; `MessageEmbedsKind` gives its three parts and `MessageInjective` shows it determines the type |
| ContactRedirect.MessageEmbedsKind | src/components/ContactRedirect.tsx:34 | the message is exactly the fixed opening, then the type verbatim, then the fixed closing question |
| ContactRedirect.MessageInjective | src/components/ContactRedirect.tsx:34 | two types giving the same message are the same type |
| ContactRedirect.WhatsAppUrlShape | src/components/ContactRedirect.tsx:33-36 | the link is base, whitespace-free number, `?text=` and the encoded message |
| App.RenderScreen | src/App.tsx:19-46 | `renderScreen`; characterised by `RenderRoundTrip`, `ViewRoundTrip`, `RedirectTypes` and `UnknownScreenIsDashboard` |
| App.ScreenOf | src/App.tsx:13 | every view has a screen name the switch handles |
| App.RedirectTypes | src/App.tsx:33-38 | 'travel-insurance' mounts the redirect with 'voyage', 'home-insurance' with 'habitation' |
| App.UnknownScreenIsDashboard | src/App.tsx:43-44 | any unmatched name renders the dashboard |
| App.RenderRoundTrip | src/App.tsx:19-45 | every handled name mounts a view that maps back to that name |
| App.ViewRoundTrip | src/App.tsx:19-45 | every mountable view is reached from its own name |
| App.AppContent.constructor | src/App.tsx:17 | the first screen is 'dashboard' with a user at first render, else 'login' |
| App.AppContent.Navigate | src/App.tsx:22-42 | `onNavigate` sets the screen to exactly its argument |
| App.AppContent.Rendered | src/App.tsx:19-45 | a handled screen mounts its own view; any other mounts the dashboard |
| LoginPage.LoginPage.constructor | src/components/auth/LoginPage.tsx:13-16 | empty fields, not loading, no error |
| LoginPage.LoginPage.SetTelephone | src/components/auth/LoginPage.tsx:62 | only the telephone changes |
| LoginPage.LoginPage.SetPassword | src/components/auth/LoginPage.tsx:72 | only the password changes |
| LoginPage.LoginPage.BeginSubmit | src/components/auth/LoginPage.tsx:22-23 | loading set and error cleared before the call |
| LoginPage.LoginPage.AfterLogin | src/components/auth/LoginPage.tsx:25-36 | true: dashboard; false: credentials error; throw: connection error; loading false on every path |
| LoginPage.LoginPage.HandleSubmit | src/components/auth/LoginPage.tsx:20-37 | navigates to the dashboard iff both typed fields are non-empty; then the mock user with the typed number is logged in and persisted under the key, with no error; otherwise the credentials error and an unchanged store; the fields are kept |
| RegisterPage.WithText | src/components/auth/RegisterPage.tsx:73-75 | `updateFormData` changes only the named text field |
| RegisterPage.ValidationError | src/components/auth/RegisterPage.tsx:33-41 | mismatched passwords are reported first; conditions are checked only after; no error iff both checks pass |
| RegisterPage.RegisterPage.constructor | src/components/auth/RegisterPage.tsx:14-24 | empty form, step 'form', not loading, no error |
| RegisterPage.RegisterPage.UpdateText | src/components/auth/RegisterPage.tsx:73-75 | only that form field changes |
| RegisterPage.RegisterPage.SetAcceptConditions | src/components/auth/RegisterPage.tsx:188 | only the conditions flag changes |
| RegisterPage.RegisterPage.BackToForm | src/components/auth/RegisterPage.tsx:109 | back to the 'form' step |
| RegisterPage.RegisterPage.BeginSubmit | src/components/auth/RegisterPage.tsx:28-43 | the error is cleared, then the first failing check sets its error and nothing is sent; valid input starts loading |
| RegisterPage.RegisterPage.AfterSend | src/components/auth/RegisterPage.tsx:44-50 | sent: step 'otp'; throw: send error, step kept; loading false |
| RegisterPage.RegisterPage.HandleSubmit | src/components/auth/RegisterPage.tsx:28-51 | valid input reaches step 'otp' with no error; invalid input keeps the step and shows the first check's error |
| RegisterPage.RegisterPage.BeginOtpVerification | src/components/auth/RegisterPage.tsx:54 | loading set |
| RegisterPage.RegisterPage.AfterVerify | src/components/auth/RegisterPage.tsx:55-66 | only a valid code goes on to `register`; invalid: 'Code OTP incorrect'; throw: verification error |
| RegisterPage.RegisterPage.AfterRegister | src/components/auth/RegisterPage.tsx:58-70 | created: dashboard; not created: creation error; throw: verification error; loading false |
| RegisterPage.RegisterPage.HandleOtpVerification | src/components/auth/RegisterPage.tsx:53-71 | dashboard iff the code is valid and the conditions are accepted; then the new user is set and persisted and the error is kept; an invalid code (OTP error) or unaccepted conditions (creation error) leave the store unchanged |
| ForgotPasswordPage.ForgotPasswordPage.constructor | src/components/auth/ForgotPasswordPage.tsx:14-20 | step 'phone', empty fields, not loading, no error |
| ForgotPasswordPage.ForgotPasswordPage.Edit | src/components/auth/ForgotPasswordPage.tsx:103 | only the edited input changes |
| ForgotPasswordPage.ForgotPasswordPage.BeginSendOtp | src/components/auth/ForgotPasswordPage.tsx:24-27 | from the phone step: loading set, error cleared |
| ForgotPasswordPage.ForgotPasswordPage.AfterSendOtp | src/components/auth/ForgotPasswordPage.tsx:29-35 | from the phone step: sent: step 'otp'; throw: send error, step kept; loading false; the step never goes back |
| ForgotPasswordPage.ForgotPasswordPage.HandleSendOtp | src/components/auth/ForgotPasswordPage.tsx:24-36 | from the phone step, moves forward to otp with no error; number, code and passwords kept |
| ForgotPasswordPage.ForgotPasswordPage.BeginOtpVerification | src/components/auth/ForgotPasswordPage.tsx:38-40 | in the otp step, the entered code is stored before the check |
| ForgotPasswordPage.ForgotPasswordPage.AfterOtpVerification | src/components/auth/ForgotPasswordPage.tsx:41-51 | valid: step 'reset'; invalid: 'Code OTP incorrect'; throw: verification error; the step never goes back |
| ForgotPasswordPage.ForgotPasswordPage.HandleOtpVerification | src/components/auth/ForgotPasswordPage.tsx:38-52 | in the otp step: stores the code; moves to 'reset' iff it is valid, keeping the error, otherwise shows the OTP error; number and passwords kept |
| ForgotPasswordPage.ForgotPasswordPage.BeginPasswordReset | src/components/auth/ForgotPasswordPage.tsx:54-65 | mismatched passwords: mismatch error and no request; otherwise the request carries the stored number, the new password and the stored code |
| ForgotPasswordPage.ForgotPasswordPage.AfterPasswordReset | src/components/auth/ForgotPasswordPage.tsx:66-74 | true: login screen; false: reset error; throw: reset-exception error; loading false |
| ForgotPasswordPage.ForgotPasswordPage.HandlePasswordReset | src/components/auth/ForgotPasswordPage.tsx:54-75 | in the reset step: login screen iff the typed passwords match and the stored code is valid, with no error; a mismatch shows its error and starts nothing; every field is kept |
| CarInsurance.Rank | src/components/insurance/CarInsurance.tsx:12 | each step sits at its own position of comparison, personal, vehicle, insurance, summary, payment |
| CarInsurance.IndexIsRank | src/components/insurance/CarInsurance.tsx:79 | `indexOf` on the step list is the step's rank |
| CarInsurance.NextRank | src/components/insurance/CarInsurance.tsx:77-83 | `nextStep` goes to the following step and is a no-op at payment |
| CarInsurance.PrevRank | src/components/insurance/CarInsurance.tsx:85-91 | `prevStep` goes to the preceding step and is a no-op at comparison |
| CarInsurance.FindPrice | src/components/insurance/CarInsurance.tsx:445 | `find` by name: none iff no company has that name, else the price of the first company with that name |
| CarInsurance.CompanyPrice | src/components/insurance/CarInsurance.tsx:39-55 | every listed company is found with its own price |
| CarInsurance.Updated | src/components/insurance/CarInsurance.tsx:67-75 | `updateFormData` changes only that field of that section; the other sections and the photo are kept |
| CarInsurance.CanLeave | src/components/insurance/CarInsurance.tsx:149-419 | the disabled-condition of each step's forward button; what passing them all means is stated by `PaymentMeansComplete` |
| CarInsurance.GuardReadsOwnFields | src/components/insurance/CarInsurance.tsx:67-75 | editing a field of one step never changes another step's guard |
| CarInsurance.PaymentMeansComplete | src/components/insurance/CarInsurance.tsx:149-419 | with every earlier guard passed: a company is chosen, every personal, vehicle and insurance field is filled, and the photo is present |
| CarInsurance.CarInsurance.constructor | src/components/insurance/CarInsurance.tsx:58-65 | comparison step, no company, empty form |
| CarInsurance.CarInsurance.NextStep | src/components/insurance/CarInsurance.tsx:77-83 | one step forward, none at payment; form and company unchanged |
| CarInsurance.CarInsurance.PrevStep | src/components/insurance/CarInsurance.tsx:85-91 | one step back, none at comparison; keeps every earlier guard passed |
| CarInsurance.CarInsurance.Continue | src/components/insurance/CarInsurance.tsx:216-217 | the forward button moves only when the step's guard holds, and keeps every earlier guard passed |
| CarInsurance.CarInsurance.SelectCompany | src/components/insurance/CarInsurance.tsx:113 | the chosen company is the card's name, and its price becomes the displayed amount |
| CarInsurance.CarInsurance.UpdateFormData | src/components/insurance/CarInsurance.tsx:67-75 | the form becomes `Updated`; an edit on the current step keeps every earlier guard passed |
| CarInsurance.CarInsurance.SetCarteGrise | src/components/insurance/CarInsurance.tsx:384-389 | only the photo's presence changes |
| CarInsurance.CarInsurance.DisplayedPrice | src/components/insurance/CarInsurance.tsx:507 | the amount is the price of the company named `selectedCompany` |
| CarInsurance.CarInsurance.Back | src/components/insurance/CarInsurance.tsx:584 | the dashboard at comparison, otherwise exactly `prevStep` |
| CarInsurance.CarInsurance.Pay | src/components/insurance/CarInsurance.tsx:544-550 | disabled until a payment method is chosen, then the dashboard |
| CarInsurance.CarInsurance.PaymentShowsPrice | src/components/insurance/CarInsurance.tsx:507 | at payment, reached through the enabled buttons, a price is shown |
| EducationInsurance.Rank | src/components/insurance/EducationInsurance.tsx:12 | each step sits at its own position of subscription, formula, duration, verification, payment |
| EducationInsurance.IndexIsRank | src/components/insurance/EducationInsurance.tsx:88 | `indexOf` on the step list is the step's rank |
| EducationInsurance.NextRank | src/components/insurance/EducationInsurance.tsx:86-92 | `nextStep` goes to the following step and is a no-op at payment |
| EducationInsurance.PrevRank | src/components/insurance/EducationInsurance.tsx:94-100 | `prevStep` goes to the preceding step and is a no-op at subscription |
| EducationInsurance.RemoveFirstComma | src/components/insurance/EducationInsurance.tsx:108 | `replace(',', '')` removes the first comma only; putting it back at its place restores the string |
| EducationInsurance.DigitPrefix | src/components/insurance/EducationInsurance.tsx:108 | the longest run of leading digits |
| EducationInsurance.ParseInt | src/components/insurance/EducationInsurance.tsx:108 | NaN iff the string does not start with a digit |
| EducationInsurance.RoundDiv | src/components/insurance/EducationInsurance.tsx:108 | `Math.round(a / b)`: the nearest integer, halves up |
| EducationInsurance.ParseAllDigits | src/components/insurance/EducationInsurance.tsx:108 | a string of digits parses to its whole value |
| EducationInsurance.RemoveCommaSplit | src/components/insurance/EducationInsurance.tsx:108 | removing the comma from `a,b` gives `ab` |
| EducationInsurance.FindFormula | src/components/insurance/EducationInsurance.tsx:102 | `find` by id: none iff no formula has that id, else a listed formula with it (the first one: `FindFormulaFirst`) |
| EducationInsurance.FindDuration | src/components/insurance/EducationInsurance.tsx:103 | `find` by id: none iff no duration has that id, else a listed duration with it (the first one: `FindDurationFirst`) |
| EducationInsurance.FindFormulaFirst | src/components/insurance/EducationInsurance.tsx:102 | the formula `find` returns is the first with that id: no earlier formula has it |
| EducationInsurance.FindDurationFirst | src/components/insurance/EducationInsurance.tsx:103 | the duration `find` returns is the first with that id: no earlier duration has it |
| EducationInsurance.BasePrice | src/components/insurance/EducationInsurance.tsx:108 | `parseInt(price.replace(',', ''))`; its values on the table are stated by `CuivreBase` to `OrBase` and `ListedBasesParse` |
| EducationInsurance.CuivreBase | src/components/insurance/EducationInsurance.tsx:32 | '35,000' parses to 35000 |
| EducationInsurance.BronzeBase | src/components/insurance/EducationInsurance.tsx:40 | '65,000' parses to 65000 |
| EducationInsurance.ArgentBase | src/components/insurance/EducationInsurance.tsx:48 | '120,000' parses to 120000 |
| EducationInsurance.OrBase | src/components/insurance/EducationInsurance.tsx:56 | '200,000' parses to 200000 |
| EducationInsurance.ListedBasesParse | src/components/insurance/EducationInsurance.tsx:108 | every listed price parses, to at least 35000 |
| EducationInsurance.DurationYears | src/components/insurance/EducationInsurance.tsx:63-67 | the duration ids parse to 5, 10 and 15 years |
| EducationInsurance.FindListedFormula | src/components/insurance/EducationInsurance.tsx:102 | every listed formula is found by its own id |
| EducationInsurance.FindListedDuration | src/components/insurance/EducationInsurance.tsx:103 | every listed duration is found by its own id |
| EducationInsurance.TotalPrice | src/components/insurance/EducationInsurance.tsx:104-111 | 0 unless both formula and duration are selected, else the parsed base × multiplier rounded to the nearest integer |
| EducationInsurance.MonthlyAmount | src/components/insurance/EducationInsurance.tsx:384 | the total over years × 12, rounded to the nearest integer; none where the duration does not parse to a positive number |
| EducationInsurance.Savings | src/components/insurance/EducationInsurance.tsx:278 | positive iff the multiplier is below 2, then (2 − m) × 100 |
| EducationInsurance.PaymentAmount | src/components/insurance/EducationInsurance.tsx:455-461 | the total for 'Paiement immédiat', the monthly amount otherwise |
| EducationInsurance.TotalFromParts | src/components/insurance/EducationInsurance.tsx:108 | when base × multiplier is a whole number of tens, the total is exactly that quotient |
| EducationInsurance.TotalsExactWith | src/components/insurance/EducationInsurance.tsx:108 | a base of whole thousands gives an exact total with every duration |
| EducationInsurance.TotalsExact | src/components/insurance/EducationInsurance.tsx:104-111 | every listed formula and duration give total × 10 = base × tenths, with no rounding |
| EducationInsurance.ArgentTenYearsTotal | src/components/insurance/EducationInsurance.tsx:108 | argent over 10 years totals 216000 |
| EducationInsurance.ArgentTenYearsMonthly | src/components/insurance/EducationInsurance.tsx:384 | 216000 over 10 years is 1800 a month |
| EducationInsurance.ArgentTenYearsPayment | src/components/insurance/EducationInsurance.tsx:455-461 | argent over 10 years shows 216000 when paid at once, else 1800 |
| EducationInsurance.SavingsShown | src/components/insurance/EducationInsurance.tsx:278 | the three duration cards show savings of 100, 20 and 0 |
| EducationInsurance.ProportionalSavingsGrow | src/components/insurance/EducationInsurance.tsx:271 | measured against repeating the 5-year contract, savings are 0, 10 and 17, growing with duration |
| EducationInsurance.Updated | src/components/insurance/EducationInsurance.tsx:76-84 | `updateFormData` changes only that field of that section |
| EducationInsurance.CanLeave | src/components/insurance/EducationInsurance.tsx:179-432 | the disabled-condition of each step's forward button; what passing them all means is stated by `PaymentMeansComplete` |
| EducationInsurance.GuardReadsOwnFields | src/components/insurance/EducationInsurance.tsx:76-84 | editing a field of one step never changes another step's guard |
| EducationInsurance.PaymentMeansComplete | src/components/insurance/EducationInsurance.tsx:179-432 | with every earlier guard passed, all seven fields are filled |
| EducationInsurance.SelectedTotal | src/components/insurance/EducationInsurance.tsx:104-111 | a selected formula and duration give a total of at least 35000 |
| EducationInsurance.SelectedAmount | src/components/insurance/EducationInsurance.tsx:455-461 | a selected duration always gives a payment amount |
| EducationInsurance.EducationInsurance.constructor | src/components/insurance/EducationInsurance.tsx:70-74 | subscription step, empty form |
| EducationInsurance.EducationInsurance.NextStep | src/components/insurance/EducationInsurance.tsx:86-92 | one step forward, none at payment; the form is unchanged |
| EducationInsurance.EducationInsurance.PrevStep | src/components/insurance/EducationInsurance.tsx:94-100 | one step back, none at subscription; keeps every earlier guard passed |
| EducationInsurance.EducationInsurance.Continue | src/components/insurance/EducationInsurance.tsx:178-179 | the forward button moves only when the step's guard holds, and keeps every earlier guard passed |
| EducationInsurance.EducationInsurance.UpdateFormData | src/components/insurance/EducationInsurance.tsx:76-84 | the form becomes `Updated`; an edit on the current step keeps every earlier guard passed |
| EducationInsurance.EducationInsurance.ChooseFormula | src/components/insurance/EducationInsurance.tsx:207 | the formula field becomes the card's id, which finds that formula |
| EducationInsurance.EducationInsurance.ChooseDuration | src/components/insurance/EducationInsurance.tsx:288 | the duration field becomes the card's id, which finds that duration |
| EducationInsurance.EducationInsurance.ChoosePaiement | src/components/insurance/EducationInsurance.tsx:412 | the payment mode becomes the button's label |
| EducationInsurance.EducationInsurance.Total | src/components/insurance/EducationInsurance.tsx:104-111 | 0 while the formula or the duration is unselected |
| EducationInsurance.EducationInsurance.Amount | src/components/insurance/EducationInsurance.tsx:455-461 | the amount on the payment step, `PaymentAmount` of the form; shown to exist at payment by `PaymentShowsAmount` |
| EducationInsurance.EducationInsurance.PaymentShowsAmount | src/components/insurance/EducationInsurance.tsx:455-461 | at payment, reached through the enabled buttons, the total is at least 35000 and an amount is shown |
| EducationInsurance.EducationInsurance.Back | src/components/insurance/EducationInsurance.tsx:534 | the dashboard at subscription, otherwise exactly `prevStep` |
| EducationInsurance.EducationInsurance.Cancel | src/components/insurance/EducationInsurance.tsx:174 | the dashboard |
| EducationInsurance.EducationInsurance.Finalize | src/components/insurance/EducationInsurance.tsx:499-502 | the dashboard, with no condition |
| ClaimsForm.WithText | src/components/forms/ClaimsForm.tsx:39-41 | only the named text field changes; photos are kept |
| ClaimsForm.WithPhoto | src/components/forms/ClaimsForm.tsx:43-45 | only the named photo changes; text fields are kept |
| ClaimsForm.IsFormValid | src/components/forms/ClaimsForm.tsx:62-72 | `isFormValid`; characterised by `FormValidIffComplete` |
| ClaimsForm.FormValidIffComplete | src/components/forms/ClaimsForm.tsx:62-72 | valid iff all six text fields are non-empty and all three photos are present |
| ClaimsForm.ClearedPhotoInvalidates | src/components/forms/ClaimsForm.tsx:91 | uploading no file clears that photo, so the form is invalid |
| ClaimsForm.EmptiedTextInvalidates | src/components/forms/ClaimsForm.tsx:62-72 | emptying any text field makes the form invalid |
| ClaimsForm.ClaimsForm.constructor | src/components/forms/ClaimsForm.tsx:25-37 | empty claim, not loading, no success |
| ClaimsForm.ClaimsForm.UpdateFormData | src/components/forms/ClaimsForm.tsx:39-41 | the claim becomes `WithText`; loading and success are untouched |
| ClaimsForm.ClaimsForm.HandleFileUpload | src/components/forms/ClaimsForm.tsx:43-45 | the claim becomes `WithPhoto`; no file makes the form invalid |
| ClaimsForm.ClaimsForm.SubmitEnabled | src/components/forms/ClaimsForm.tsx:270 | enabled iff every text field is filled and every photo is present |
| ClaimsForm.ClaimsForm.BeginSubmit | src/components/forms/ClaimsForm.tsx:49 | loading set; the claim is untouched |
| ClaimsForm.ClaimsForm.AfterSubmitDelay | src/components/forms/ClaimsForm.tsx:52-55 | loading false, success true |
| ClaimsForm.ClaimsForm.HandleSubmit | src/components/forms/ClaimsForm.tsx:47-60 | ends with loading false and success true, then goes to the dashboard |
| ClaimsForm.ClaimsForm.Cancel | src/components/forms/ClaimsForm.tsx:261-264 | the dashboard, with the form untouched |
| ComplaintsForm.Updated | src/components/forms/ComplaintsForm.tsx:31-33 | only the named field changes |
| ComplaintsForm.IsFormValid | src/components/forms/ComplaintsForm.tsx:50-56 | `isFormValid`; characterised by `FormValidIffComplete` |
| ComplaintsForm.Utf16Length | src/components/forms/ComplaintsForm.tsx:210 | `description.length` in UTF-16 code units: between the character count and twice it |
| ComplaintsForm.BmpLengthIsCount | src/components/forms/ComplaintsForm.tsx:210 | without characters above U+FFFF, `length` is the character count |
| ComplaintsForm.Utf16LengthConcat | src/components/forms/ComplaintsForm.tsx:210 | `length` adds up over concatenation |
| ComplaintsForm.CanSubmit | src/components/forms/ComplaintsForm.tsx:210 | the submit button's enabling condition, the minimum counted in UTF-16 code units; characterised by `SubmitIffFilledAndLongEnough` |
| ComplaintsForm.FormValidIffComplete | src/components/forms/ComplaintsForm.tsx:50-56 | valid iff nom, prenom, telephone, motif and description are all non-empty |
| ComplaintsForm.SubmitIffFilledAndLongEnough | src/components/forms/ComplaintsForm.tsx:210 | submittable iff the four short fields are filled and the description is at least 20 UTF-16 code units long |
| ComplaintsForm.ShortDescriptionBlocks | src/components/forms/ComplaintsForm.tsx:210 | a description under 20 UTF-16 code units keeps submit disabled |
| ComplaintsForm.AstralCharactersCountTwice | src/components/forms/ComplaintsForm.tsx:210 | ten characters above U+FFFF have length 20 and, with the other fields filled, enable submit |
| ComplaintsForm.MotifsNonEmpty | src/components/forms/ComplaintsForm.tsx:58-65 | six motifs, none empty |
| ComplaintsForm.ComplaintsForm.constructor | src/components/forms/ComplaintsForm.tsx:21-29 | empty complaint, not loading, no success |
| ComplaintsForm.ComplaintsForm.UpdateFormData | src/components/forms/ComplaintsForm.tsx:31-33 | the complaint becomes `Updated`; loading and success are untouched |
| ComplaintsForm.ComplaintsForm.ChooseMotif | src/components/forms/ComplaintsForm.tsx:168 | the motif becomes exactly that entry of the six-item list |
| ComplaintsForm.ComplaintsForm.SubmitEnabled | src/components/forms/ComplaintsForm.tsx:210 | enabled iff every field is filled and the description is at least 20 UTF-16 code units long |
| ComplaintsForm.ComplaintsForm.BeginSubmit | src/components/forms/ComplaintsForm.tsx:37 | loading set; the complaint is untouched |
| ComplaintsForm.ComplaintsForm.AfterSubmitDelay | src/components/forms/ComplaintsForm.tsx:42-43 | loading false, success true |
| ComplaintsForm.ComplaintsForm.HandleSubmit | src/components/forms/ComplaintsForm.tsx:35-48 | ends with loading false and success true, then goes to the dashboard |
| ComplaintsForm.ComplaintsForm.Cancel | src/components/forms/ComplaintsForm.tsx:203 | the dashboard, with the form untouched |

## Left out

- Real time. Every `setTimeout` delay (the mock calls, the 1.5–2 s form
  submits, the 2 s navigation after success) is an immediate step. The
  1-second countdown clock is an explicit `Tick`.
- Every asynchronous handler is modelled as running to completion without
  interleaving with other events. React state batching, effect cleanup and
  stale closures are not modelled.
- App.AppContent.constructor: takes the user present at first render as a
  parameter, as `src/App.tsx:17` reads it. The startup restore is an effect
  that runs after that render, and `user` starts as null
  (`src/contexts/AuthContext.tsx:32`). So the running program always opens on
  'login', even with a stored session. The constructor's dashboard branch is
  reached only by a caller that already knows the user.
- `localStorage` and JSON. Storage is a map from keys to `User` records, and
  the JSON encoding is taken as lossless.
- `Date.now()` in `register`. The id is a parameter.
- DOM focus and `inputRefs`. Focus is a cell index.
- `File` objects. Only their presence is modelled.
- `window.location`, `window.open` and `alert` are not modelled.
  `encodeURIComponent` is an opaque function parameter of the link builder.
- `toLocaleString` formatting of amounts.
- Floating point. Multipliers are in tenths, and rounding is exact integer
  rounding to nearest with halves up. Floating-point error in the source's
  products is not modelled.
- `EducationInsurance.ParseInt`: models `parseInt` only for strings that
  begin with a digit. Leading whitespace or a sign, which JavaScript skips or
  accepts, give `None` here. The strings the wizard parses all begin with a
  digit.
- EducationInsurance.MonthlyAmount: gives `None` where the source shows
  `NaN` or `Infinity`: a duration that does not parse, or parses to 0. The
  listed durations parse to 5, 10 and 15 (`DurationYears`).
- EducationInsurance.TotalPrice: a price that does not parse gives 0 here
  instead of `NaN`. No listed formula has such a price (`ListedBasesParse`).
- `updateFormData(section, field, value)` takes free strings in the source.
  Here the section and key pair is a `Field` value. A call with a key outside
  the record would add a property; that case is not modelled.
- The option lists on the wizard screens are not enforced by
  `updateFormData`: usage, driver, contract length, payment method. The
  model's `UpdateFormData` accepts any string, as the source's does.
- The education payment-method buttons at
  `src/components/insurance/EducationInsurance.tsx:480-488` have no handler.
  Neither do the company advantages or the presentational components
  (Header, Input, Card, Button, Dashboard tiles, icons, CSS classes).
- The fixed-target links on the authentication screens are not modelled.
  They only call `onNavigate` with a constant: register, forgot password,
  back to login.
- The mock `sendOTP` result is ignored by the pages, as in the source. The
  composite `Handle…` methods run against the mock store, which never
  throws. The throw paths are covered by the `After…` methods.
- The context hook's error outside a provider is not modelled.

## Findings

| source | as written | input that shows it | evidently intended | confidence | as-written member | corrected member |
|---|---|---|---|---|---|---|
| src/components/insurance/EducationInsurance.tsx:278 | the savings badge is `round((2 − multiplier) × 100)` when the multiplier is below 2 | the 5-year card (multiplier 1) shows "Économie de 100%", 10 years 20%, 15 years nothing; line 271 tells the user that a longer contract saves more | savings that grow with the duration, e.g. measured against buying the 5-year contract again for every five years covered: 0%, 10%, 17% | medium, not executed | EducationInsurance.SavingsShown | EducationInsurance.ProportionalSavingsGrow |
