/** The app's root composable: the global state (`fullProfile`, `historyData`,
    `recommendations`, `isLoadingData`, `tempUid`), the NavHost back stack, and the
    route callbacks that edit them. Each `scope.launch` body is one atomic method whose
    ID token and HTTP replies are parameters; a launch that the source starts from a
    callback is returned as a flag and run by the caller as a method of its own. The
    `effects` log keeps the order of observable actions. */
module App {
  import opened KotlinText
  import opened Models
  import opened Navigation
  import opened Session
  import StartRoute
  import EditProfile
  import Components
  import History

  /** The HTTP calls, with the uid in the path where there is one and the request body
      where one is sent. */
  datatype Endpoint =
    | GetProfile(uid: string)
    | GetTodayHistory
    | GetRecommendations
    | LogMeal(meal: MealRequest)
    | UpdateProfile(uid: string, body: PhysicalDataRequest)

  /** The `onFinished` a `loadData` call receives: none (`loadData(null)`), the tab's
      `isRefreshing = it`, or the edit screen's `navController.popBackStack()`. */
  datatype Callback = NoCallback | SetRefreshing | PopBackOnFinish

  datatype Message = ConnectionProblem | SaveError

  datatype Effect =
    | Fetched(endpoint: Endpoint)
    | Navigated(route: Route)
    | PoppedBack
    | SignedOut
    | SessionCleared
    | SessionSaved
    | Invoked(callback: Callback, argument: bool)
    | Toast(message: Message)
    | Crashed  // an exception no `try` catches ends the process

  /** `onFinished?.invoke(false)` as it appears in the log. */
  function Finale(cb: Callback): (log: seq<Effect>)
    ensures cb.NoCallback? <==> log == []
    ensures log != [] ==> log == [Invoked(cb, false)]
  {
    if cb.NoCallback? then [] else [Invoked(cb, false)]
  }

  /** The back stack after `onFinished` ran. */
  function AfterFinish(stack: BackStack, cb: Callback): (r: BackStack)
    ensures !cb.PopBackOnFinish? ==> r == stack
    ensures cb.PopBackOnFinish? ==> r == PopBack(stack)
  {
    if cb.PopBackOnFinish? then PopBack(stack) else stack
  }

  /** `rRes.body()?.data?.recipes ?: emptyList()`. */
  function RecipesOrEmpty(d: Option<RecommendationData>): (r: seq<Recipe>)
    ensures d.Some? && d.value.recipes.Some? ==> r == d.value.recipes.value
    ensures d.None? || d.value.recipes.None? ==> r == []
  {
    if d.Some? && d.value.recipes.Some? then d.value.recipes.value else []
  }

  /** The request `onUpdateTdee` sends: the profile as loaded, with only the activity
      level replaced. */
  function TdeeRequest(profile: FullUserProfile, newVal: real): (req: PhysicalDataRequest)
    ensures req.activityLevel == newVal
    ensures req == EditProfile.ResentRequest(profile).(activityLevel := newVal)
    ensures req.birthdate == if profile.birthdate.Some? then profile.birthdate.value else "2000-01-01"
  {
    PhysicalDataRequest(profile.name, profile.birthdate.GetOr("2000-01-01"), profile.physicalData.gender,
                        profile.physicalData.height, profile.physicalData.weight, newVal, profile.allergies)
  }

  class NyamApp {
    var fullProfile: Option<FullUserProfile>
    var historyData: Option<HistoryData>
    var recommendations: seq<Recipe>
    var isLoadingData: bool
    var tempUid: string
    var backStack: BackStack
    /** Whether Firebase has a current user. */
    var signedIn: bool
    /** The "nyam_prefs" shared preferences. */
    var sharedPrefs: StartRoute.SharedPrefs
    var effects: seq<Effect>
    const session: SessionManager

    /** `NyamApp(startDestination)` with the current Firebase user's uid, the stored
        session and the shared preferences. */
    constructor (startDestination: Route, currentUid: Option<string>, stored: Prefs, prefs: StartRoute.SharedPrefs)
      ensures fullProfile.None? && historyData.None? && recommendations == [] && isLoadingData
      ensures tempUid == currentUid.GetOr("") && signedIn == currentUid.Some?
      ensures backStack == [startDestination] && sharedPrefs == prefs && effects == []
      ensures fresh(session) && session.prefs == stored
    {
      fullProfile, historyData, recommendations, isLoadingData := None, None, [], true;
      tempUid, signedIn := currentUid.GetOr(""), currentUid.Some?;
      backStack, sharedPrefs, effects := [startDestination], prefs, [];
      session := new SessionManager(stored);
    }

    /** The `finally` of `loadData`. */
    method Finish(onFinished: Callback)
      modifies this`isLoadingData, this`effects, this`backStack
      ensures !isLoadingData
      ensures effects == old(effects) + Finale(onFinished)
      ensures backStack == AfterFinish(old(backStack), onFinished)
    {
      isLoadingData := false;
      if !onFinished.NoCallback? {
        effects := effects + [Invoked(onFinished, false)];
      }
      if onFinished.PopBackOnFinish? {
        backStack := PopBack(backStack);
      }
    }

    /** One run of `loadData(onFinished)` with the token and the three replies. A reply
        that `Threw` is an exception from that call; later calls are then not made. */
    method LoadData(onFinished: Callback, token: Option<string>,
                    pRes: Reply<FullUserProfile>, hRes: Reply<HistoryData>, rRes: Reply<RecommendationData>)
      modifies this`fullProfile, this`historyData, this`recommendations, this`isLoadingData,
               this`backStack, this`signedIn, this`effects, session
      // the finally block, on every path
      ensures !isLoadingData && tempUid == old(tempUid)
      ensures |effects| >= |old(effects)| && effects[..|old(effects)|] == old(effects)
      ensures !onFinished.NoCallback? ==> |effects| > 0 && effects[|effects| - 1] == Invoked(onFinished, false)
      // no token or no uid: no fetch, no state change
      ensures token.None? || old(tempUid) == "" ==>
                effects == old(effects) + Finale(onFinished)
                && fullProfile == old(fullProfile) && historyData == old(historyData)
                && recommendations == old(recommendations) && signedIn == old(signedIn)
                && session.prefs == old(session.prefs) && backStack == AfterFinish(old(backStack), onFinished)
      // the profile call threw
      ensures token.Some? && old(tempUid) != "" && pRes.Threw? ==>
                effects == old(effects) + [Fetched(GetProfile(old(tempUid))), Toast(ConnectionProblem)] + Finale(onFinished)
                && fullProfile == old(fullProfile) && historyData == old(historyData)
                && recommendations == old(recommendations) && signedIn == old(signedIn)
                && session.prefs == old(session.prefs) && backStack == AfterFinish(old(backStack), onFinished)
      // profile success: it is assigned first and stays assigned whatever follows
      ensures token.Some? && old(tempUid) != "" && pRes.IsSuccessful() ==>
                fullProfile == pRes.data && signedIn == old(signedIn)
                && session.prefs == old(session.prefs) && backStack == AfterFinish(old(backStack), onFinished)
      ensures token.Some? && old(tempUid) != "" && pRes.IsSuccessful() && hRes.Threw? ==>
                effects == old(effects) + [Fetched(GetProfile(old(tempUid))), Fetched(GetTodayHistory), Toast(ConnectionProblem)] + Finale(onFinished)
                && historyData == old(historyData) && recommendations == old(recommendations)
      ensures token.Some? && old(tempUid) != "" && pRes.IsSuccessful() && !hRes.Threw? && rRes.Threw? ==>
                effects == old(effects) + [Fetched(GetProfile(old(tempUid))), Fetched(GetTodayHistory), Fetched(GetRecommendations), Toast(ConnectionProblem)] + Finale(onFinished)
                && historyData == old(historyData) && recommendations == old(recommendations)
      ensures token.Some? && old(tempUid) != "" && pRes.IsSuccessful() && !hRes.Threw? && !rRes.Threw? ==>
                effects == old(effects) + [Fetched(GetProfile(old(tempUid))), Fetched(GetTodayHistory), Fetched(GetRecommendations)] + Finale(onFinished)
                && historyData == (if hRes.IsSuccessful() then hRes.data else old(historyData))
                && recommendations == (if rRes.IsSuccessful() then RecipesOrEmpty(rRes.data) else old(recommendations))
      // 401 or 404: to login with the stack cleared, then sign out, clear the session, drop the profile
      ensures token.Some? && old(tempUid) != "" && pRes.Responded? && (pRes.code == 401 || pRes.code == 404) ==>
                effects == old(effects) + [Fetched(GetProfile(old(tempUid))), Navigated(Login), SignedOut, SessionCleared] + Finale(onFinished)
                && backStack == AfterFinish([Login], onFinished)
                && fullProfile.None? && !signedIn && session.prefs == map[]
                && historyData == old(historyData) && recommendations == old(recommendations)
      // any other failing status: nothing but the finally block
      ensures token.Some? && old(tempUid) != "" && pRes.Responded? && !pRes.IsSuccessful() && pRes.code != 401 && pRes.code != 404 ==>
                effects == old(effects) + [Fetched(GetProfile(old(tempUid)))] + Finale(onFinished)
                && fullProfile == old(fullProfile) && historyData == old(historyData)
                && recommendations == old(recommendations) && signedIn == old(signedIn)
                && session.prefs == old(session.prefs) && backStack == AfterFinish(old(backStack), onFinished)
    {
      LoadBody(token, pRes, hRes, rRes);
      Finish(onFinished);
    }

    /** The `try` block of `loadData`: what happens before the `finally`. */
    method LoadBody(token: Option<string>, pRes: Reply<FullUserProfile>, hRes: Reply<HistoryData>, rRes: Reply<RecommendationData>)
      modifies this`fullProfile, this`historyData, this`recommendations, this`backStack, this`signedIn, this`effects, session
      ensures token.None? || tempUid == "" ==>
                effects == old(effects) && fullProfile == old(fullProfile) && historyData == old(historyData)
                && recommendations == old(recommendations) && signedIn == old(signedIn)
                && session.prefs == old(session.prefs) && backStack == old(backStack)
      ensures token.Some? && tempUid != "" && pRes.Threw? ==>
                effects == old(effects) + [Fetched(GetProfile(tempUid)), Toast(ConnectionProblem)]
                && fullProfile == old(fullProfile) && historyData == old(historyData)
                && recommendations == old(recommendations) && signedIn == old(signedIn)
                && session.prefs == old(session.prefs) && backStack == old(backStack)
      ensures token.Some? && tempUid != "" && pRes.IsSuccessful() ==>
                fullProfile == pRes.data && signedIn == old(signedIn)
                && session.prefs == old(session.prefs) && backStack == old(backStack)
      ensures token.Some? && tempUid != "" && pRes.IsSuccessful() && hRes.Threw? ==>
                effects == old(effects) + [Fetched(GetProfile(tempUid)), Fetched(GetTodayHistory), Toast(ConnectionProblem)]
                && historyData == old(historyData) && recommendations == old(recommendations)
      ensures token.Some? && tempUid != "" && pRes.IsSuccessful() && !hRes.Threw? && rRes.Threw? ==>
                effects == old(effects) + [Fetched(GetProfile(tempUid)), Fetched(GetTodayHistory), Fetched(GetRecommendations), Toast(ConnectionProblem)]
                && historyData == old(historyData) && recommendations == old(recommendations)
      ensures token.Some? && tempUid != "" && pRes.IsSuccessful() && !hRes.Threw? && !rRes.Threw? ==>
                effects == old(effects) + [Fetched(GetProfile(tempUid)), Fetched(GetTodayHistory), Fetched(GetRecommendations)]
                && historyData == (if hRes.IsSuccessful() then hRes.data else old(historyData))
                && recommendations == (if rRes.IsSuccessful() then RecipesOrEmpty(rRes.data) else old(recommendations))
      ensures token.Some? && tempUid != "" && pRes.Responded? && (pRes.code == 401 || pRes.code == 404) ==>
                effects == old(effects) + [Fetched(GetProfile(tempUid)), Navigated(Login), SignedOut, SessionCleared]
                && backStack == [Login] && fullProfile.None? && !signedIn && session.prefs == map[]
                && historyData == old(historyData) && recommendations == old(recommendations)
      ensures token.Some? && tempUid != "" && pRes.Responded? && !pRes.IsSuccessful() && pRes.code != 401 && pRes.code != 404 ==>
                effects == old(effects) + [Fetched(GetProfile(tempUid))]
                && fullProfile == old(fullProfile) && historyData == old(historyData)
                && recommendations == old(recommendations) && signedIn == old(signedIn)
                && session.prefs == old(session.prefs) && backStack == old(backStack)
    {
      if token.Some? && tempUid != "" {
        effects := effects + [Fetched(GetProfile(tempUid))];
        if pRes.Threw? {
          effects := effects + [Toast(ConnectionProblem)];
        } else if pRes.IsSuccessful() {
          fullProfile := pRes.data;
          FetchRest(hRes, rRes);
        } else if pRes.code == 404 || pRes.code == 401 {
          AccountGone();
        }
      }
    }

    /** The rest of `loadData` after the profile was assigned: both calls are made before
        either result is assigned, so an exception from either assigns neither. */
    method FetchRest(hRes: Reply<HistoryData>, rRes: Reply<RecommendationData>)
      modifies this`historyData, this`recommendations, this`effects
      ensures hRes.Threw? ==>
                effects == old(effects) + [Fetched(GetTodayHistory), Toast(ConnectionProblem)]
                && historyData == old(historyData) && recommendations == old(recommendations)
      ensures !hRes.Threw? && rRes.Threw? ==>
                effects == old(effects) + [Fetched(GetTodayHistory), Fetched(GetRecommendations), Toast(ConnectionProblem)]
                && historyData == old(historyData) && recommendations == old(recommendations)
      ensures !hRes.Threw? && !rRes.Threw? ==>
                effects == old(effects) + [Fetched(GetTodayHistory), Fetched(GetRecommendations)]
                && historyData == (if hRes.IsSuccessful() then hRes.data else old(historyData))
                && recommendations == (if rRes.IsSuccessful() then RecipesOrEmpty(rRes.data) else old(recommendations))
    {
      effects := effects + [Fetched(GetTodayHistory)];
      if hRes.Threw? {
        effects := effects + [Toast(ConnectionProblem)];
        return;
      }
      effects := effects + [Fetched(GetRecommendations)];
      if rRes.Threw? {
        effects := effects + [Toast(ConnectionProblem)];
        return;
      }
      if hRes.IsSuccessful() { historyData := hRes.data; }
      if rRes.IsSuccessful() { recommendations := RecipesOrEmpty(rRes.data); }
    }

    /** The 401/404 branch of `loadData`: navigate first, then sign out, clear the
        session and drop the profile. */
    method AccountGone()
      modifies this`backStack, this`signedIn, this`effects, this`fullProfile, session
      ensures backStack == [Login] && !signedIn && fullProfile.None? && session.prefs == map[]
      ensures effects == old(effects) + [Navigated(Login), SignedOut, SessionCleared]
    {
      backStack := Navigate(backStack, Login, PopAll);
      effects := effects + [Navigated(Login)];
      signedIn := false;
      effects := effects + [SignedOut];
      session.ClearSession();
      effects := effects + [SessionCleared];
      fullProfile := None;
    }

    /** The onboarding screen's finish (and skip): remember that onboarding was seen and
        go to login, removing onboarding from the stack. */
    method FinishOnboarding()
      modifies this`sharedPrefs, this`backStack, this`effects
      ensures sharedPrefs == old(sharedPrefs)[StartRoute.HasSeenOnboardingKey := true]
      ensures backStack == Navigate(old(backStack), Login, PopTo(Onboarding, true))
      ensures effects == old(effects) + [Navigated(Login)]
      // a later launch without a signed-in user starts at login
      ensures StartRoute.LaunchRoute(None, sharedPrefs) == Login
    {
      sharedPrefs := sharedPrefs[StartRoute.HasSeenOnboardingKey := true];
      backStack := Navigate(backStack, Login, PopTo(Onboarding, true));
      effects := effects + [Navigated(Login)];
    }

    /** Login's `onAuthSuccess` and the launch it starts. The callback only runs once the
        Firebase sign-in has succeeded, so a user is signed in afterwards. */
    method LoginSuccess(user: UserData)
      modifies this`tempUid, this`signedIn, this`backStack, this`effects, session
      ensures tempUid == user.uid && signedIn
      ensures session.prefs == Saved(old(session.prefs), user.uid, user.name, user.isOnboardingCompleted, user.nutritionalNeeds)
      ensures var route := if user.isOnboardingCompleted then Home else Route.PhysicalData;
              backStack == Navigate(old(backStack), route, PopTo(Login, true))
              && effects == old(effects) + [SessionSaved, Navigated(route)]
    {
      tempUid, signedIn := user.uid, true;
      session.SaveSession(user.uid, user.name, user.isOnboardingCompleted, user.nutritionalNeeds);
      effects := effects + [SessionSaved];
      var route := if user.isOnboardingCompleted then Home else Route.PhysicalData;
      backStack := Navigate(backStack, route, PopTo(Login, true));
      effects := effects + [Navigated(route)];
    }

    /** A plain `navigate(route)`: login to register, home to profile, profile to edit. */
    method NavigateTo(route: Route)
      modifies this`backStack, this`effects
      ensures backStack == old(backStack) + [route]
      ensures effects == old(effects) + [Navigated(route)]
    {
      backStack := Navigate(backStack, route, NoPop);
      effects := effects + [Navigated(route)];
    }

    /** Register's `onRegisterSuccess`: with user data, save the session without
        nutrition needs and go to physical data; without, go to login. User data only
        arrives after a successful Firebase sign-in. */
    method RegisterSuccess(user: Option<UserData>)
      modifies this`tempUid, this`signedIn, this`backStack, this`effects, session
      ensures user.Some? ==>
                tempUid == user.value.uid && signedIn
                && session.prefs == Saved(old(session.prefs), user.value.uid, user.value.name, user.value.isOnboardingCompleted, None)
                && backStack == Navigate(old(backStack), Route.PhysicalData, PopTo(Register, true))
                && effects == old(effects) + [SessionSaved, Navigated(Route.PhysicalData)]
      ensures user.None? ==>
                tempUid == old(tempUid) && signedIn == old(signedIn) && session.prefs == old(session.prefs)
                && backStack == old(backStack) + [Login]
                && effects == old(effects) + [Navigated(Login)]
    {
      match user
      case Some(u) =>
        tempUid, signedIn := u.uid, true;
        session.SaveSession(u.uid, u.name, u.isOnboardingCompleted, None);
        effects := effects + [SessionSaved];
        backStack := Navigate(backStack, Route.PhysicalData, PopTo(Register, true));
        effects := effects + [Navigated(Route.PhysicalData)];
      case None =>
        backStack := Navigate(backStack, Login, NoPop);
        effects := effects + [Navigated(Login)];
    }

    /** `onBack = { navController.popBackStack() }` of register, profile and edit profile. */
    method Back()
      modifies this`backStack, this`effects
      ensures backStack == PopBack(old(backStack))
      ensures effects == old(effects) + [PoppedBack]
    {
      backStack := PopBack(backStack);
      effects := effects + [PoppedBack];
    }

    /** The physical-data screen's `onComplete`: persist `isDone = true` for `tempUid`,
        keeping the stored name and needs, then go home. */
    method PhysicalDataComplete()
      modifies this`backStack, this`effects, session
      ensures session.prefs == Saved(old(session.prefs), tempUid, None, true, None)
      ensures OnboardingDone(session.prefs) && CachedNeeds(session.prefs) == CachedNeeds(old(session.prefs))
      ensures backStack == Navigate(old(backStack), Home, PopTo(Route.PhysicalData, true))
      ensures effects == old(effects) + [SessionSaved, Navigated(Home)]
    {
      session.SaveSession(tempUid, None, true, None);
      effects := effects + [SessionSaved];
      backStack := Navigate(backStack, Home, PopTo(Route.PhysicalData, true));
      effects := effects + [Navigated(Home)];
    }

    /** The home destination's `LaunchedEffect`. `startsLoad` reports the `loadData(null)`
        it launches. */
    method EnterHome(token: Option<string>) returns (startsLoad: bool)
      modifies this`backStack, this`effects
      ensures token.None? ==> backStack == [Login] && effects == old(effects) + [Navigated(Login)] && !startsLoad
      ensures token.Some? && !OnboardingDone(session.prefs) ==>
                backStack == Navigate(old(backStack), Route.PhysicalData, PopTo(Home, true))
                && effects == old(effects) + [Navigated(Route.PhysicalData)] && !startsLoad
      ensures token.Some? && OnboardingDone(session.prefs) ==>
                backStack == old(backStack) && effects == old(effects) && startsLoad == (tempUid != "")
    {
      startsLoad := false;
      if token.None? {
        backStack := Navigate(backStack, Login, PopAll);
        effects := effects + [Navigated(Login)];
        return;
      }
      var isDone := OnboardingDone(session.prefs);
      if !isDone {
        backStack := Navigate(backStack, Route.PhysicalData, PopTo(Home, true));
        effects := effects + [Navigated(Route.PhysicalData)];
      } else {
        startsLoad := tempUid != "";
      }
    }

    /** `onCookMeal`'s launch with the log-meal reply; the token is read but a null one is
        sent as "Bearer null", so it does not affect the outcome. No `try` surrounds it. */
    method CookMeal(meal: MealRequest, reply: Reply<HistoryData>) returns (startsLoad: bool)
      modifies this`effects
      ensures startsLoad <==> reply.IsSuccessful()
      ensures effects == old(effects) + [Fetched(LogMeal(meal))] + (if reply.Threw? then [Crashed] else [])
    {
      effects := effects + [Fetched(LogMeal(meal))];
      if reply.Threw? {
        effects := effects + [Crashed];
      }
      startsLoad := reply.IsSuccessful();
    }

    /** `onUpdateTdee(newVal)`'s launch for the profile the dashboard shows. */
    method UpdateTdee(profile: FullUserProfile, newVal: real, reply: Reply<FullUserProfile>)
      returns (req: PhysicalDataRequest, startsLoad: bool)
      modifies this`effects
      ensures req == TdeeRequest(profile, newVal)
      ensures startsLoad <==> reply.IsSuccessful()
      ensures effects == old(effects) + [Fetched(UpdateProfile(tempUid, req))] + (if reply.Threw? then [Crashed] else [])
    {
      req := TdeeRequest(profile, newVal);
      effects := effects + [Fetched(UpdateProfile(tempUid, req))];
      if reply.Threw? {
        effects := effects + [Crashed];
      }
      startsLoad := reply.IsSuccessful();
    }

    /** Profile's `onLogout`: to login with the stack cleared, then the launch that signs
        out and resets the in-memory state. The persisted session is left as it was. */
    method Logout()
      modifies this`backStack, this`effects, this`signedIn, this`fullProfile, this`historyData,
               this`recommendations, this`tempUid, this`isLoadingData
      ensures backStack == [Login] && effects == old(effects) + [Navigated(Login), SignedOut]
      ensures !signedIn && fullProfile.None? && historyData.None? && recommendations == []
      ensures tempUid == "" && isLoadingData
      ensures session.prefs == old(session.prefs)
    {
      backStack := Navigate(backStack, Login, PopAll);
      effects := effects + [Navigated(Login)];
      signedIn := false;
      effects := effects + [SignedOut];
      fullProfile, historyData, recommendations := None, None, [];
      tempUid, isLoadingData := "", true;
    }

    /** Edit profile's `onSave` launch with the update reply; on success it starts
        `loadData { popBackStack() }`, an exception only shows a message. */
    method EditSave(req: PhysicalDataRequest, reply: Reply<FullUserProfile>) returns (startsLoad: bool)
      modifies this`effects
      ensures startsLoad <==> reply.IsSuccessful()
      ensures effects == old(effects) + [Fetched(UpdateProfile(tempUid, req))] + (if reply.Threw? then [Toast(SaveError)] else [])
    {
      effects := effects + [Fetched(UpdateProfile(tempUid, req))];
      if reply.Threw? {
        effects := effects + [Toast(SaveError)];
      }
      startsLoad := reply.IsSuccessful();
    }
  }

  /** `MainActivity.onCreate`: pick the start destination and build the app on it. */
  method Launch(currentUid: Option<string>, stored: Prefs, prefs: StartRoute.SharedPrefs) returns (app: NyamApp)
    ensures fresh(app) && fresh(app.session)
    ensures app.backStack == [StartRoute.LaunchRoute(currentUid, prefs)]
    ensures app.tempUid == currentUid.GetOr("") && app.isLoadingData && app.fullProfile.None?
    ensures app.session.prefs == stored && app.sharedPrefs == prefs
  {
    app := new NyamApp(StartRoute.LaunchRoute(currentUid, prefs), currentUid, stored, prefs);
  }

  /** After a logout, the next `loadData` makes no call and only runs its finally block. */
  method LoadAfterLogout(app: NyamApp, onFinished: Callback, token: Option<string>,
                         pRes: Reply<FullUserProfile>, hRes: Reply<HistoryData>, rRes: Reply<RecommendationData>)
    modifies app, app.session
    ensures app.effects == old(app.effects) + [Navigated(Login), SignedOut] + Finale(onFinished)
    ensures app.fullProfile.None? && app.historyData.None? && app.recommendations == [] && !app.isLoadingData
    ensures app.session.prefs == old(app.session.prefs)
  {
    app.Logout();
    app.LoadData(onFinished, token, pRes, hRes, rRes);
  }

  /** Completing physical data and coming home with a token never bounces back to the
      physical-data screen: the flag it just saved is read back as done. */
  method CompleteThenEnterHome(app: NyamApp, token: string) returns (startsLoad: bool)
    modifies app
    modifies app.session
    ensures startsLoad == (app.tempUid != "")
    ensures app.backStack == Navigate(old(app.backStack), Home, PopTo(Route.PhysicalData, true))
  {
    app.PhysicalDataComplete();
    startsLoad := app.EnterHome(Some(token));
  }

  /** Saving the edit form on a loaded profile without an edit sends that profile back,
      for the remembered uid. */
  method SaveUneditedProfile(app: NyamApp, p: FullUserProfile, reply: Reply<FullUserProfile>) returns (startsLoad: bool)
    requires EditProfile.IntFields(p)
    modifies app`effects
    ensures app.effects == old(app.effects) + [Fetched(UpdateProfile(app.tempUid, EditProfile.ResentRequest(p)))]
                           + (if reply.Threw? then [Toast(SaveError)] else [])
    ensures startsLoad <==> reply.IsSuccessful()
  {
    var onSave := EditProfile.SaveUnedited(p);
    startsLoad := app.EditSave(onSave.value, reply);
  }

  /** Cooking a logged meal again from the history sheet logs the meal's own figures. */
  method RecookMeal(app: NyamApp, tab: History.HistoryTabState, m: Meal, reply: Reply<HistoryData>) returns (startsLoad: bool)
    modifies app`effects
    ensures var sent := MealRequest(m.foodName, m.calories, m.carbs, m.protein, m.fat,
                                    m.imageUrl.GetOr(""), Some(m.sourceUrl.GetOr("")));
            app.effects == old(app.effects) + [Fetched(LogMeal(sent))] + (if reply.Threw? then [Crashed] else [])
    ensures startsLoad <==> reply.IsSuccessful()
  {
    History.RecookedMealRequest(m);
    var req := tab.CookFromSheet(Components.CookRequest(History.MealAsRecipe(m)));
    startsLoad := app.CookMeal(req, reply);
  }
}
