/** The state held by the root component (`Index`): the page on screen, the
    login flag, the signed-up user's profile and the diagnosis history that
    every page shares. */
module AppState {
  import opened Interfaces
  import opened Symptoms

  /** A history entry as the diagnosis page creates it: normalised symptom
      tokens and at least one prediction. */
  predicate IsCompletedEntry(e: DiagnosisEntry) {
    |e.predictions| > 0 && forall i :: 0 <= i < |e.symptoms| ==> IsToken(e.symptoms[i])
  }

  class App {
    var currentPage: Page
    var isLoggedIn: bool
    var userData: Option<UserData>
    /** Oldest first; pages only ever append to it. */
    var diagnosisHistory: seq<DiagnosisEntry>

    ghost predicate Valid()
      reads this
    {
      forall i :: 0 <= i < |diagnosisHistory| ==> IsCompletedEntry(diagnosisHistory[i])
    }

    /** The initial `useState` values. */
    constructor ()
      ensures Valid()
      ensures currentPage == Home && !isLoggedIn && userData == None && diagnosisHistory == []
    {
      currentPage := Home;
      isLoggedIn := false;
      userData := None;
      diagnosisHistory := [];
    }

    /** `setCurrentPage`, as the navigation links call it. */
    method Navigate(page: Page)
      modifies this`currentPage
      ensures currentPage == page
    {
      currentPage := page;
    }

    /** `handleLogout`: signs the user out and goes home. The diagnosis
        history is kept. */
    method Logout()
      requires Valid()
      modifies this
      ensures Valid()
      ensures !isLoggedIn && userData == None && currentPage == Home
      ensures diagnosisHistory == old(diagnosisHistory)
    {
      isLoggedIn := false;
      userData := None;
      currentPage := Home;
    }
  }
}
