/**
 * The top-level router: one in-memory screen name that every screen's
 * `onNavigate` callback sets, and the switch choosing what is mounted for it.
 */
module App {
  import opened Wrappers
  import AuthContext

  /** What `renderScreen` mounts. */
  datatype View =
    | LoginView
    | RegisterView
    | ForgotPasswordView
    | DashboardView
    | CarInsuranceView
    | EducationInsuranceView
    | ContactRedirectView(kind: string)
    | ClaimsView
    | ComplaintsView

  /** The screen names the switch has a case for. */
  const KnownScreens: set<string> := {
    "login", "register", "forgot-password", "dashboard", "car-insurance",
    "travel-insurance", "home-insurance", "education-insurance", "claims", "complaints"
  }

  /** `renderScreen`: the view for a screen name; any name without a case renders the dashboard. */
  function RenderScreen(screen: string): View {
    match screen
    case "login" => LoginView
    case "register" => RegisterView
    case "forgot-password" => ForgotPasswordView
    case "dashboard" => DashboardView
    case "car-insurance" => CarInsuranceView
    case "education-insurance" => EducationInsuranceView
    case "travel-insurance" => ContactRedirectView(if screen == "travel-insurance" then "voyage" else "habitation")
    case "home-insurance" => ContactRedirectView(if screen == "travel-insurance" then "voyage" else "habitation")
    case "claims" => ClaimsView
    case "complaints" => ComplaintsView
    case _ => DashboardView
  }

  /** The screen name that mounts a view (the inverse of `RenderScreen` on the views it produces). */
  function ScreenOf(view: View): (screen: string)
    ensures screen in KnownScreens
  {
    match view
    case LoginView => "login"
    case RegisterView => "register"
    case ForgotPasswordView => "forgot-password"
    case DashboardView => "dashboard"
    case CarInsuranceView => "car-insurance"
    case EducationInsuranceView => "education-insurance"
    case ContactRedirectView(kind) => if kind == "voyage" then "travel-insurance" else "home-insurance"
    case ClaimsView => "claims"
    case ComplaintsView => "complaints"
  }

  /** The two contact screens mount the redirect page with the types 'voyage' and 'habitation'. */
  lemma RedirectTypes()
    ensures RenderScreen("travel-insurance") == ContactRedirectView("voyage")
    ensures RenderScreen("home-insurance") == ContactRedirectView("habitation")
  {
  }

  /** A name without a case renders the dashboard. */
  lemma UnknownScreenIsDashboard(screen: string)
    requires screen !in KnownScreens
    ensures RenderScreen(screen) == DashboardView
  {
  }

  /** Every known name is rendered by the view it names, and naming that view again gives back the name. */
  lemma RenderRoundTrip(screen: string)
    requires screen in KnownScreens
    ensures ScreenOf(RenderScreen(screen)) == screen
  {
  }

  /** Every view the router can mount is reached from exactly the name `ScreenOf` gives it. */
  lemma ViewRoundTrip(view: View)
    requires view.ContactRedirectView? ==> view.kind in {"voyage", "habitation"}
    ensures RenderScreen(ScreenOf(view)) == view
  {
  }

  class AppContent {
    /** `currentScreen`. */
    var currentScreen: string

    /** First render: the screen is chosen once from the user present at that moment. */
    constructor (user: Option<AuthContext.User>)
      ensures user.Some? ==> currentScreen == "dashboard"
      ensures user.None? ==> currentScreen == "login"
    {
      currentScreen := if user.Some? then "dashboard" else "login";
    }

    /** `onNavigate` (`setCurrentScreen`) as every screen receives it: the screen becomes exactly the argument. */
    method Navigate(screen: string)
      modifies this
      ensures currentScreen == screen
    {
      currentScreen := screen;
    }

    /** What is mounted now. */
    function Rendered(): (view: View)
      reads this
      ensures currentScreen in KnownScreens ==> ScreenOf(view) == currentScreen
      ensures currentScreen !in KnownScreens ==> view == DashboardView
    {
      if currentScreen in KnownScreens then
        RenderRoundTrip(currentScreen);
        RenderScreen(currentScreen)
      else
        RenderScreen(currentScreen)
    }
  }
}
