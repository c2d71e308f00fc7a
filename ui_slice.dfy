/** The view store: which page the application shows. */
module UiSlice {

  const LoginView: string := "login"

  class UiState {
    var view: string

    constructor ()
      ensures view == LoginView
    {
      view := LoginView;
    }

    /** `setView`. */
    method SetView(v: string)
      modifies this
      ensures view == v
    {
      view := v;
    }
  }

  /** The page each view name shows; any other name shows nothing. */
  datatype Page = LoginPage | RegisterPage | DashboardPage | PickerPage | StatisticsPage | AdminUsersPage | NoPage

  const KnownViews: set<string> := {"login", "register", "dashboard", "picker", "statistics", "admin-users"}

  function PageOf(view: string): (p: Page)
    ensures p == NoPage <==> view !in KnownViews
    ensures p == DashboardPage <==> view == "dashboard"
    ensures p == LoginPage <==> view == LoginView
  {
    if view == "login" then LoginPage
    else if view == "register" then RegisterPage
    else if view == "dashboard" then DashboardPage
    else if view == "picker" then PickerPage
    else if view == "statistics" then StatisticsPage
    else if view == "admin-users" then AdminUsersPage
    else NoPage
  }
}
