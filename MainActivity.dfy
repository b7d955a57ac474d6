/** The launch decision of `MainActivity.onCreate`: the NavHost's start destination,
    from the signed-in Firebase user and the `has_seen_onboarding` flag kept in the
    "nyam_prefs" shared preferences. */
module StartRoute {
  import opened KotlinText
  import opened Navigation

  /** The boolean entries of the "nyam_prefs" SharedPreferences file. */
  type SharedPrefs = map<string, bool>

  const HasSeenOnboardingKey: string := "has_seen_onboarding"

  /** `getBoolean(key, default)`: the stored value, or the default when never written. */
  function GetBoolean(prefs: SharedPrefs, key: string, default: bool): (b: bool)
    ensures key in prefs ==> b == prefs[key]
    ensures key !in prefs ==> b == default
  {
    if key in prefs then prefs[key] else default
  }

  /** The `when` over the current user and the onboarding flag. */
  function StartDestination(signedIn: bool, hasSeenOnboarding: bool): (r: Route)
    ensures r == Home <==> signedIn
    ensures r == Onboarding <==> !signedIn && !hasSeenOnboarding
    ensures r == Login <==> !signedIn && hasSeenOnboarding
    ensures r in {Home, Onboarding, Login}
  {
    if signedIn then Home
    else if !hasSeenOnboarding then Onboarding
    else Login
  }

  /** The start destination `onCreate` hands to the NavHost. */
  function LaunchRoute(currentUser: Option<string>, prefs: SharedPrefs): (r: Route)
    ensures currentUser.Some? ==> r == Home
    ensures currentUser.None? && HasSeenOnboardingKey !in prefs ==> r == Onboarding
    ensures currentUser.None? && HasSeenOnboardingKey in prefs ==> r == (if prefs[HasSeenOnboardingKey] then Login else Onboarding)
    ensures r != PhysicalData
  {
    StartDestination(currentUser.Some?, GetBoolean(prefs, HasSeenOnboardingKey, false))
  }
}
