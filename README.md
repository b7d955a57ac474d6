# NYAM, modelled in Dafny

NYAM is an Android nutrition app written in Kotlin with Jetpack Compose. A user signs
in with Firebase, completes a physical-data form, and then sees a dashboard. The
dashboard shows the day's calorie and macro totals against targets, recipe
recommendations, a meal history, food recognition from a photo, and a chat bot.
This project models the app's behaviour, excluding rendering, and proves properties
of the model.

The modelled parts are:

- Start-route selection.
- The navigation state machine, including `loadData`'s partial updates and what
  survives its failures.
- The persisted session store.
- The arithmetic and list rules the dashboard displays.
- The register, physical-data and edit-profile forms.
- The dashboard, chat and onboarding screen state.

## Structure

Each core Kotlin file is one module. Pure Kotlin code becomes functions and lemmas.
Composable state (`remember { mutableStateOf(..) }`) becomes a class: its fields are
the state variables and its methods are the event handlers.

A `scope.launch { .. }` body becomes one atomic method. That method takes the token
and each HTTP reply as parameters: `Models.Reply` is either "threw" or "responded
with a code and maybe data". The handler that starts a launch returns a flag saying
so. Callers compose a handler with the launched body, as in `App.CompleteThenEnterHome`
or `Chat.Exchange`.

The helper modules are:

- `KotlinText` models the Kotlin standard-library functions the screens call:
  `toIntOrNull`, `padStart`, `isBlank`, `substringAfter`, `take`, `reversed`, list `-`
  and `split(" ").firstOrNull()`.
- `Models` holds the server records, with only the fields the logic reads.
- `Navigation` models the Jetpack NavController back stack: `navigate` with
  `popUpTo(route) { inclusive }` or `popUpTo(0)`, and `popBackStack`.

| module | file | Kotlin source |
|---|---|---|
| `KotlinText` | KotlinText.dfy | Kotlin/JVM standard library |
| `Models` | Models.dfy | data classes under `data/model` |
| `Navigation` | Navigation.dfy | NavController semantics used by `NyamApp.kt` |
| `StartRoute` | MainActivity.dfy | `MainActivity.kt` |
| `App` | NyamApp.dfy | `NyamApp.kt` |
| `Session` | SessionManager.dfy | `data/SessionManager.kt` |
| `Home` | HomeTab.dfy | `presentation/dashboard/tabs/HomeTab.kt` |
| `Components` | DashboardComponents.dfy | `presentation/dashboard/components/DashboardComponents.kt` |
| `Register` | RegisterScreen.dfy | `presentation/auth/RegisterScreen.kt` |
| `PhysicalDataForm` | PhysicalDataScreen.dfy | `presentation/onboarding/PhysicalDataScreen.kt` |
| `EditProfile` | EditProfileScreen.dfy | `presentation/profile/EditProfileScreen.kt` |
| `Dashboard` | DashboardScreen.dfy | `presentation/dashboard/DashboardScreen.kt` |
| `History` | HistoryTab.dfy | `presentation/dashboard/tabs/HistoryTab.kt` |
| `Chat` | ChatTab.dfy | `presentation/dashboard/tabs/ChatTab.kt` |
| `OnboardingPager` | OnboardingScreen.dfy | `presentation/onboarding/OnboardingScreen.kt` |

Where this README and the code could be read differently, the model follows the
Kotlin code. Two examples:

- `loadData`'s profile assignment stands even if a later call throws.
- `isSaving` in the edit form is never reset.

## Model

| member | source | states |
|---|---|---|
| StartRoute.GetBoolean | app/src/main/java/com/project/nyam/MainActivity.kt:23 | `getBoolean(key, default)` is the stored value, or the default when the key was never written |
| StartRoute.StartDestination | app/src/main/java/com/project/nyam/MainActivity.kt:27-31 | Start screen rules: "home" iff signed in; "onboarding" iff signed out without the flag; "login" iff signed out with it. Nothing else is possible |
| StartRoute.LaunchRoute | app/src/main/java/com/project/nyam/MainActivity.kt:19-33 | A signed-in user starts at home. A fresh install with no user starts at onboarding. The start route is never "physical_data" |
| Navigation.TopmostIndex | app/src/main/java/com/project/nyam/NyamApp.kt:80 | The route `popUpTo(route)` pops to is the topmost occurrence; there is none iff the route is absent |
| Navigation.Navigate | app/src/main/java/com/project/nyam/NyamApp.kt:80 | Three `navigate` cases. The destination ends on top and the stack below it is a prefix of the old one. No `popUpTo`, or a route not on the stack, pushes. `popUpTo(0)` leaves only the destination. `popUpTo(route)` keeps the stack up to that route, dropping the route itself when inclusive |
| Navigation.PopBack | app/src/main/java/com/project/nyam/NyamApp.kt:119 | `popBackStack` drops the top entry; on an empty stack it does nothing |
| Navigation.Current | app/src/main/java/com/project/nyam/NyamApp.kt:72 | The shown destination is the top of the stack, and there is none iff the stack is empty |
| Navigation.RouteNamesDistinct | app/src/main/java/com/project/nyam/NyamApp.kt:74-226 | The seven route strings are pairwise distinct |
| Navigation.NavigateShows | app/src/main/java/com/project/nyam/NyamApp.kt:80 | After any `navigate`, the destination is what is shown |
| Navigation.BackUndoesPlainNavigate | app/src/main/java/com/project/nyam/NyamApp.kt:164 | A plain `navigate` followed by `popBackStack` restores the old stack |
| App.Finale | app/src/main/java/com/project/nyam/NyamApp.kt:68 | `onFinished?.invoke(false)`: one call with `false` iff a callback was given |
| App.AfterFinish | app/src/main/java/com/project/nyam/NyamApp.kt:241 | Only the edit-profile callback changes the stack, and it pops once |
| App.RecipesOrEmpty | app/src/main/java/com/project/nyam/NyamApp.kt:52-53 | The recommendations are the body's recipes, or empty when the body or its list is missing |
| App.TdeeRequest | app/src/main/java/com/project/nyam/NyamApp.kt:178-186 | Update-TDEE resends the current profile with only the activity level replaced; a missing birthdate becomes "2000-01-01" |
| App.NyamApp.Finish | app/src/main/java/com/project/nyam/NyamApp.kt:66-69 | The `finally` block: not loading any more, and the callback is invoked once with false |
| App.NyamApp.LoadData | app/src/main/java/com/project/nyam/NyamApp.kt:40-71 | See "LoadData branches" below |
| App.NyamApp.LoadBody | app/src/main/java/com/project/nyam/NyamApp.kt:42-63 | The `try` block of `loadData`: the same branches as `LoadData`, before the `finally` runs; the stack changes only on 401/404 |
| App.NyamApp.FetchRest | app/src/main/java/com/project/nyam/NyamApp.kt:49-53 | History, then recommendations, each replaced only on its own success; a throw stops the rest and is reported |
| App.NyamApp.AccountGone | app/src/main/java/com/project/nyam/NyamApp.kt:56-61 | Navigate to login with the stack cleared, then sign out, clear the session and drop the profile, in that order |
| App.NyamApp.FinishOnboarding | app/src/main/java/com/project/nyam/NyamApp.kt:76-80 | Finishing onboarding: the flag is written, onboarding is replaced by login, and the next launch with no user starts at login |
| App.NyamApp.LoginSuccess | app/src/main/java/com/project/nyam/NyamApp.kt:85-96 | `tempUid` becomes the uid, a user counts as signed in, and the session is saved with all four fields. Then the app goes to home or physical_data by `isOnboardingCompleted`, removing login |
| App.NyamApp.NavigateTo | app/src/main/java/com/project/nyam/NyamApp.kt:97 | A plain navigation pushes the route |
| App.NyamApp.RegisterSuccess | app/src/main/java/com/project/nyam/NyamApp.kt:101-118 | With user data: uid remembered, a user signed in, and the session saved with `isOnboardingCompleted` and no nutrition needs; then register is replaced by physical_data. Without: plain navigation to login, nothing else changes |
| App.NyamApp.Back | app/src/main/java/com/project/nyam/NyamApp.kt:119 | `onBack` pops the stack once |
| App.NyamApp.PhysicalDataComplete | app/src/main/java/com/project/nyam/NyamApp.kt:123-131 | The session flag becomes true, the cached targets are untouched, and physical_data is replaced by home |
| App.NyamApp.EnterHome | app/src/main/java/com/project/nyam/NyamApp.kt:136-152 | Entering home: no token goes to login; a false flag replaces home by physical_data; otherwise `loadData` starts iff `tempUid` is non-empty |
| App.NyamApp.CookMeal | app/src/main/java/com/project/nyam/NyamApp.kt:165-174 | One log-meal call carrying the given meal request, then a reload iff it succeeded. An exception escapes the launch uncaught |
| App.NyamApp.UpdateTdee | app/src/main/java/com/project/nyam/NyamApp.kt:175-194 | The request is `TdeeRequest`, sent as the body of the update call for `tempUid`; a reload follows iff the call succeeded |
| App.NyamApp.Logout | app/src/main/java/com/project/nyam/NyamApp.kt:208-222 | Logout: login with the stack cleared, sign-out, and the in-memory state reset (`isLoadingData` true again). The persisted session is left intact |
| App.NyamApp.EditSave | app/src/main/java/com/project/nyam/NyamApp.kt:230-247 | One update call for `tempUid` carrying the form's request; a reload with the pop-back callback iff it succeeded; an exception becomes a toast |
| App.SaveUneditedProfile | app/src/main/java/com/project/nyam/NyamApp.kt:230-247 | Saving the edit form unedited sends the loaded profile back (`ResentRequest`) as the update body for `tempUid`; a reload follows iff the call succeeded |
| App.RecookMeal | app/src/main/java/com/project/nyam/presentation/dashboard/tabs/HistoryTab.kt:163-181 | Cooking a logged meal again from the history sheet logs exactly the meal's own name, energy and macros, with a missing image or source sent as "" |
| App.Launch | app/src/main/java/com/project/nyam/MainActivity.kt:19-33 | The app starts on `LaunchRoute`, with `tempUid` from the current user and nothing loaded |
| App.LoadAfterLogout | app/src/main/java/com/project/nyam/NyamApp.kt:210-221 | A reload after logout fetches nothing: the empty `tempUid` guard holds and only the finally block runs |
| App.CompleteThenEnterHome | app/src/main/java/com/project/nyam/NyamApp.kt:123-151 | After completing physical data, entering home with a token starts `loadData` iff `tempUid` is non-empty |
| Session.OnboardingDone | app/src/main/java/com/project/nyam/data/SessionManager.kt:47 | True iff the flag is stored true; an absent key reads false |
| Session.CachedNeeds | app/src/main/java/com/project/nyam/data/SessionManager.kt:48-56 | Null iff calories are absent or 0; otherwise the stored figures, with absent macros read as 0 |
| Session.Saved | app/src/main/java/com/project/nyam/data/SessionManager.kt:27-45 | See "Session.Saved" below |
| Session.SessionManager.SaveSession | app/src/main/java/com/project/nyam/data/SessionManager.kt:27-45 | The store after the call is `Saved` of the store before it |
| Session.SessionManager.ClearSession | app/src/main/java/com/project/nyam/data/SessionManager.kt:58-60 | Every key is removed, so the flag reads false and the targets null |
| Session.DefaultedSaveResetsOnboarding | app/src/main/java/com/project/nyam/data/SessionManager.kt:30-36 | A save that omits `isDone` turns a true onboarding flag false |
| Home.SummaryOrZero | app/src/main/java/com/project/nyam/presentation/dashboard/tabs/HomeTab.kt:42 | Without history the summary is all zeros |
| Home.OverLimitMessage | app/src/main/java/com/project/nyam/presentation/dashboard/tabs/HomeTab.kt:62-65 | The alert text is the fixed sentence "Asupan … Anda telah melebihi target harian." with the exceeded names joined by ", " in the gap |
| Home.OverLimits | app/src/main/java/com/project/nyam/presentation/dashboard/tabs/HomeTab.kt:56-60 | A nutrient is listed iff its total is strictly above its target; names keep the order Kalori, Karbohidrat, Protein, Lemak |
| Home.ActivityLabel | app/src/main/java/com/project/nyam/presentation/dashboard/tabs/HomeTab.kt:68-75 | Exactly 1.2, 1.375, 1.55, 1.725 and 1.9 get the five named labels; every other value is "Custom" |
| Home.OfferedMultipliersAreNamed | app/src/main/java/com/project/nyam/presentation/dashboard/tabs/HomeTab.kt:243-249 | Every dropdown multiplier has a named label, the same multipliers the physical-data form offers. Each item's text begins with its label |
| Home.Chunked | app/src/main/java/com/project/nyam/presentation/dashboard/tabs/HomeTab.kt:283 | `chunked(2)`: rows of one or two that concatenate to the list, all of two for an even count, and (n+1)/2 of them |
| Home.ChunkedOdd | app/src/main/java/com/project/nyam/presentation/dashboard/tabs/HomeTab.kt:283 | For an odd count every row is full except the last, which holds one item |
| Home.AllergyLayout | app/src/main/java/com/project/nyam/presentation/dashboard/tabs/HomeTab.kt:272-301 | See "Home.AllergyLayout" below |
| Home.HomeTabState.OnSummaryChanged | app/src/main/java/com/project/nyam/presentation/dashboard/tabs/HomeTab.kt:55-66 | The list is `OverLimits`. A non-empty list sets the message and raises the dialog; an empty one leaves both as they were |
| Home.HomeTabState.PickTdee | app/src/main/java/com/project/nyam/presentation/dashboard/tabs/HomeTab.kt:250-256 | The chosen multiplier goes to `onUpdateTdee` and always has a named label; the menu closes |
| Home.HomeTabState.CookFromSheet | app/src/main/java/com/project/nyam/presentation/dashboard/tabs/HomeTab.kt:355-358 | The request is forwarded, then the selected recipe is cleared |
| Components.Progress | app/src/main/java/com/project/nyam/presentation/dashboard/components/DashboardComponents.kt:44 | The ring's fill is current/target (its product with the target gives back the amount) for a positive target, and 0 otherwise |
| Components.Kcal | app/src/main/java/com/project/nyam/presentation/dashboard/components/DashboardComponents.kt:87 | kcal is grams × 9 for "Lemak" and × 4 otherwise. The result is always an Int, equal to the exact product when that fits and congruent to it modulo 2^32 (wrap-around) when it does not |
| Components.RingIsOver | app/src/main/java/com/project/nyam/presentation/dashboard/components/DashboardComponents.kt:44-45 | The ring is over iff target > 0 and current > target |
| Components.DivAboveOne | app/src/main/java/com/project/nyam/presentation/dashboard/components/DashboardComponents.kt:44-45 | For a positive target, current/target > 1 iff current > target |
| Components.CalorieWarning | app/src/main/java/com/project/nyam/presentation/dashboard/components/DashboardComponents.kt:95-115 | The warning shows iff the calorie target > 0 and the total exceeds it |
| Components.BmrColor | app/src/main/java/com/project/nyam/presentation/dashboard/components/DashboardComponents.kt:242-250 | A score in 0..5 selects that palette colour; any other score is gray |
| Components.Sheet | app/src/main/java/com/project/nyam/presentation/dashboard/components/DashboardComponents.kt:364-436 | See "Components.Sheet" below |
| Components.CookRequest | app/src/main/java/com/project/nyam/presentation/dashboard/components/DashboardComponents.kt:455-463 | The meal request copies name, calories, macros, image and source URL from the recipe unchanged |
| Components.FormatMealTime | app/src/main/java/com/project/nyam/presentation/dashboard/components/DashboardComponents.kt:556-570 | "-" for null or blank input. A successful parse gives the parsed text. On a failed parse, the first five characters after the first 'T', or "-" with no 'T' |
| Register.IsPasswordValid | app/src/main/java/com/project/nyam/presentation/auth/RegisterScreen.kt:80-83 | The pattern's four lookaheads, the `\S+$` lookahead and `.{8,}$` under `matches`; a match is at least 8 characters long with no line terminator (its full meaning is `PasswordValidIff`) |
| Register.PasswordValidIff | app/src/main/java/com/project/nyam/presentation/auth/RegisterScreen.kt:80-83 | See "Register.PasswordValidIff" below |
| Register.BlankOrBreakRejected | app/src/main/java/com/project/nyam/presentation/auth/RegisterScreen.kt:81 | Any `\s` character or line terminator anywhere makes the password invalid |
| Register.MatchFollowsRule | app/src/main/java/com/project/nyam/presentation/auth/RegisterScreen.kt:81-82 | A match means the rule holds: `.{8,}$` reaching the end rules out line terminators, so the `\S+` run reaches the end too |
| Register.RuleGivesMatch | app/src/main/java/com/project/nyam/presentation/auth/RegisterScreen.kt:81-82 | A password following the rule matches: every lookahead finds its character and both `$` sit at the end |
| Register.SampleAccepted | app/src/main/java/com/project/nyam/presentation/auth/RegisterScreen.kt:81 | "Nyam2024!" is accepted |
| Register.SampleRejected | app/src/main/java/com/project/nyam/presentation/auth/RegisterScreen.kt:81 | "Nyam 2024!" (with a space) is rejected |
| Register.SubmitEffects | app/src/main/java/com/project/nyam/presentation/auth/RegisterScreen.kt:174-188 | Account creation is attempted iff the password is valid; an invalid one gives only the weak-password toast. Going back happens iff creation succeeded, after the success toast. `onRegisterSuccess` is never called here |
| Register.GoogleEffects | app/src/main/java/com/project/nyam/presentation/auth/RegisterScreen.kt:60-78 | Only a picker exception gives the toast. `onRegisterSuccess(u)` is called iff there was an ID token and sign-in returned `u`; nothing else ever reaches it |
| PhysicalDataForm.Toggled | app/src/main/java/com/project/nyam/presentation/onboarding/PhysicalDataScreen.kt:232-235 | See "PhysicalDataForm.Toggled" below |
| PhysicalDataForm.RemovalKeepsOthers | app/src/main/java/com/project/nyam/presentation/onboarding/PhysicalDataScreen.kt:233 | `remove(x)` on a list holding `x` shortens it by one and keeps every other item's membership; on a duplicate-free list `x` is then absent |
| PhysicalDataForm.RemovedNoDuplicates | app/src/main/java/com/project/nyam/presentation/onboarding/PhysicalDataScreen.kt:233 | Removing one entry keeps a duplicate-free list duplicate-free, and that entry is gone |
| PhysicalDataForm.DigitFieldValue | app/src/main/java/com/project/nyam/presentation/onboarding/PhysicalDataScreen.kt:265-266 | A digit-only field converts to its value, or to 0 when empty or over `Int.MAX_VALUE` |
| PhysicalDataForm.FormatBirthdate | app/src/main/java/com/project/nyam/presentation/onboarding/PhysicalDataScreen.kt:69-72 | The picked date starts with the printed year followed by '-', and has at least six more characters (two padded fields and a separator) |
| PhysicalDataForm.FormatBirthdateFields | app/src/main/java/com/project/nyam/presentation/onboarding/PhysicalDataScreen.kt:69-72 | The picked date reads back as year, month + 1 and day, in 4-2-2 digits |
| PhysicalDataForm.FormatBirthdateIsFullDate | app/src/main/java/com/project/nyam/presentation/onboarding/PhysicalDataScreen.kt:69-72 | For a four-digit year and a valid day, the picked date is a full-date as section 5.6 of RFC 3339 defines it |
| PhysicalDataForm.PhysicalDataForm.constructor | app/src/main/java/com/project/nyam/presentation/onboarding/PhysicalDataScreen.kt:40-57 | The form starts empty with birthdate "1998-05-20", gender 0, not loading, the menu closed, no allergies, and the first activity option (1.2) selected; the form invariant holds |
| PhysicalDataForm.PhysicalDataForm.Request | app/src/main/java/com/project/nyam/presentation/onboarding/PhysicalDataScreen.kt:261-269 | The request copies name, birthdate, gender and allergies. Height and weight are `toIntOrNull() ?: 0` of the digit fields: the field's decimal value when it fits in an Int, otherwise 0, so each is 0 iff its field is empty, zero or overflowing. The activity level is the selected multiplier, always one of the offered ones |
| PhysicalDataForm.PhysicalDataForm.EditHeight | app/src/main/java/com/project/nyam/presentation/onboarding/PhysicalDataScreen.kt:171 | Only all-digit text is taken, so the field stays digit-only |
| PhysicalDataForm.PhysicalDataForm.EditWeight | app/src/main/java/com/project/nyam/presentation/onboarding/PhysicalDataScreen.kt:180 | Only all-digit text is taken, so the field stays digit-only |
| PhysicalDataForm.PhysicalDataForm.SelectActivity | app/src/main/java/com/project/nyam/presentation/onboarding/PhysicalDataScreen.kt:200-205 | The picked option's text and multiplier become the selection and the menu closes |
| PhysicalDataForm.PhysicalDataForm.ToggleAllergy | app/src/main/java/com/project/nyam/presentation/onboarding/PhysicalDataScreen.kt:232-235 | The selection becomes `Toggled` of the old one and the chip's state flips |
| PhysicalDataForm.PhysicalDataForm.DatePicked | app/src/main/java/com/project/nyam/presentation/onboarding/PhysicalDataScreen.kt:69-72 | The birthdate becomes the formatted picked date |
| PhysicalDataForm.PhysicalDataForm.Submit | app/src/main/java/com/project/nyam/presentation/onboarding/PhysicalDataScreen.kt:251-257 | Disabled while loading. An empty name, height or weight gives a toast and no launch. Otherwise loading starts and the request is launched |
| PhysicalDataForm.PhysicalDataForm.Complete | app/src/main/java/com/project/nyam/presentation/onboarding/PhysicalDataScreen.kt:257-284 | See "PhysicalDataForm.PhysicalDataForm.Complete" below |
| EditProfile.EditProfileForm.ActivityLevel | app/src/main/java/com/project/nyam/presentation/profile/EditProfileScreen.kt:88 | The activity level sent is the loaded one, 1.2 without a profile |
| EditProfile.EditProfileForm.Request | app/src/main/java/com/project/nyam/presentation/profile/EditProfileScreen.kt:88 | `onSave` gets the form's fields, with height and weight as `toIntOrNull() ?: 0` |
| EditProfile.EditProfileForm.constructor | app/src/main/java/com/project/nyam/presentation/profile/EditProfileScreen.kt:35-47 | Without a profile: "", "2000-01-01", "", "", gender 0, no allergies. With one: its fields, numbers printed |
| EditProfile.EditProfileForm.EditName | app/src/main/java/com/project/nyam/presentation/profile/EditProfileScreen.kt:109 | The edit is ignored while saving |
| EditProfile.EditProfileForm.EditHeight | app/src/main/java/com/project/nyam/presentation/profile/EditProfileScreen.kt:135 | Taken only when not saving and all digits |
| EditProfile.EditProfileForm.EditWeight | app/src/main/java/com/project/nyam/presentation/profile/EditProfileScreen.kt:146 | Taken only when not saving and all digits |
| EditProfile.EditProfileForm.SelectGender | app/src/main/java/com/project/nyam/presentation/profile/EditProfileScreen.kt:162 | Gender 0 or 1, ignored while saving |
| EditProfile.EditProfileForm.OpenDatePicker | app/src/main/java/com/project/nyam/presentation/profile/EditProfileScreen.kt:122 | The picker opens only when not saving |
| EditProfile.EditProfileForm.ConfirmDate | app/src/main/java/com/project/nyam/presentation/profile/EditProfileScreen.kt:58-64 | A selected date replaces the birthdate and the picker closes |
| EditProfile.EditProfileForm.ToggleAllergy | app/src/main/java/com/project/nyam/presentation/profile/EditProfileScreen.kt:177 | `list - x` or `list + x` as `Toggled`, ignored while saving |
| EditProfile.EditProfileForm.Back | app/src/main/java/com/project/nyam/presentation/profile/EditProfileScreen.kt:79 | Back works iff not saving |
| EditProfile.EditProfileForm.Save | app/src/main/java/com/project/nyam/presentation/profile/EditProfileScreen.kt:85-89 | Hidden while saving. Otherwise it sets `isSaving` and passes `Request()` to `onSave` |
| EditProfile.SaveUnedited | app/src/main/java/com/project/nyam/presentation/profile/EditProfileScreen.kt:38-88 | Saving an unedited loaded profile resends it exactly as update-TDEE would (with the same activity level) |
| EditProfile.EditsWhileSaving | app/src/main/java/com/project/nyam/presentation/profile/EditProfileScreen.kt:109-177 | Once saving has started, no edit changes the request |
| Dashboard.Greeting | app/src/main/java/com/project/nyam/presentation/dashboard/DashboardScreen.kt:64-70 | Pagi iff 0–11, Siang iff 12–14, Sore iff 15–18, Malam otherwise |
| Dashboard.GreetingBands | app/src/main/java/com/project/nyam/presentation/dashboard/DashboardScreen.kt:64-70 | Every hour of the day gets one of the four greetings, and 19–23 is Malam |
| Dashboard.TopBarTitle | app/src/main/java/com/project/nyam/presentation/dashboard/DashboardScreen.kt:134-138 | Greeting plus the name's first word; a name without a space stays whole |
| Dashboard.DashboardState.Shown | app/src/main/java/com/project/nyam/presentation/dashboard/DashboardScreen.kt:97-117 | The camera shown iff open. The results page iff the camera is closed and results exist. Otherwise the current tab |
| Dashboard.DashboardState.PermissionResult | app/src/main/java/com/project/nyam/presentation/dashboard/DashboardScreen.kt:56-62 | A grant opens the camera; a denial only shows a toast |
| Dashboard.DashboardState.StartUpload | app/src/main/java/com/project/nyam/presentation/dashboard/DashboardScreen.kt:74 | An image upload raises the searching flag before its launch |
| Dashboard.DashboardState.ImageCaptured | app/src/main/java/com/project/nyam/presentation/dashboard/DashboardScreen.kt:100-103 | The camera closes and the upload starts with the searching flag up |
| Dashboard.DashboardState.FinishUpload | app/src/main/java/com/project/nyam/presentation/dashboard/DashboardScreen.kt:75-93 | See "Dashboard.DashboardState.FinishUpload" below |
| Dashboard.DashboardState.StartTextSearch | app/src/main/java/com/project/nyam/presentation/dashboard/DashboardScreen.kt:230 | A text search raises the searching flag before its launch |
| Dashboard.DashboardState.FinishTextSearch | app/src/main/java/com/project/nyam/presentation/dashboard/DashboardScreen.kt:231-243 | Results are replaced by the body's recipes only on success, and the recognition info is untouched. A throw gives a toast. The searching flag drops |
| Dashboard.DashboardState.ResultsBack | app/src/main/java/com/project/nyam/presentation/dashboard/DashboardScreen.kt:111-114 | Back from results clears both the results and the recognition info |
| Dashboard.CaptureAndUpload | app/src/main/java/com/project/nyam/presentation/dashboard/DashboardScreen.kt:73-106 | After capture and upload the camera is closed and the flag is down. A successful upload with recipes shows the results page; a failure keeps the old results |
| Dashboard.BackToTabs | app/src/main/java/com/project/nyam/presentation/dashboard/DashboardScreen.kt:106-118 | With the camera closed, back from results returns to the same tab |
| History.DisplayedMeals | app/src/main/java/com/project/nyam/presentation/dashboard/tabs/HistoryTab.kt:40 | The list is the day's meals reversed (same meals, newest first), or empty without history |
| History.NewestFirst | app/src/main/java/com/project/nyam/presentation/dashboard/tabs/HistoryTab.kt:39-40 | The first row is the meal logged last |
| History.SummaryFigures | app/src/main/java/com/project/nyam/presentation/dashboard/tabs/HistoryTab.kt:89-101 | The four header figures are the summary's, or 0 without history (the home tab's zero summary) |
| History.ShowsEmptyState | app/src/main/java/com/project/nyam/presentation/dashboard/tabs/HistoryTab.kt:113 | The empty state is shown iff there is no history or no meal in it |
| History.MealAsRecipe | app/src/main/java/com/project/nyam/presentation/dashboard/tabs/HistoryTab.kt:163-174 | Name, calories and macros are kept. Null image and source become "". Time and weight are 0, and cuisine, meal type and ingredients null |
| History.RecookedMealRequest | app/src/main/java/com/project/nyam/presentation/dashboard/tabs/HistoryTab.kt:163-181 | Cooking a logged meal again sends its own figures, with a missing image or source as "" |
| History.MealSheet | app/src/main/java/com/project/nyam/presentation/dashboard/tabs/HistoryTab.kt:176-183 | A logged meal's sheet has no time, weight, cuisine, meal-type or ingredient parts. It shows the meal time iff there is one, and the source link iff the meal has a non-blank URL |
| History.HistoryTabState.CookFromSheet | app/src/main/java/com/project/nyam/presentation/dashboard/tabs/HistoryTab.kt:179-181 | The request is forwarded and the selection stays |
| Chat.BotAnswer | app/src/main/java/com/project/nyam/presentation/dashboard/tabs/ChatTab.kt:77-84 | A successful reply with data adds that one bot message, an exception adds the apology, anything else adds nothing |
| Chat.ChatState.constructor | app/src/main/java/com/project/nyam/presentation/dashboard/tabs/ChatTab.kt:27-29 | The transcript starts as the single greeting, with empty input, not sending |
| Chat.ChatState.SendEnabled | app/src/main/java/com/project/nyam/presentation/dashboard/tabs/ChatTab.kt:91 | The send button is enabled iff no message is in flight and the input has a non-whitespace character |
| Chat.ChatState.EditInput | app/src/main/java/com/project/nyam/presentation/dashboard/tabs/ChatTab.kt:57-61 | The field takes text only while not sending |
| Chat.ChatState.Send | app/src/main/java/com/project/nyam/presentation/dashboard/tabs/ChatTab.kt:66-73 | Blank input is a no-op. Otherwise exactly one user message is appended, the input is cleared, sending starts, and its text is the request |
| Chat.ChatState.Finish | app/src/main/java/com/project/nyam/presentation/dashboard/tabs/ChatTab.kt:74-87 | Appends `BotAnswer`, keeps the transcript non-empty with the greeting first, ends not sending, and scrolls to size − 1 ≥ 0 |
| Chat.Exchange | app/src/main/java/com/project/nyam/presentation/dashboard/tabs/ChatTab.kt:66-91 | From an enabled button, the old transcript is a proper prefix of the new one. The user message comes next, followed by at most one answer, and the tab ends idle |
| OnboardingPager.Dots | app/src/main/java/com/project/nyam/presentation/onboarding/OnboardingScreen.kt:155-164 | One dot per page, exactly the current one highlighted |
| OnboardingPager.Pager.SkipVisible | app/src/main/java/com/project/nyam/presentation/onboarding/OnboardingScreen.kt:63 | Skip is shown exactly on the pages where the button reads "Next", i.e. all but the last |
| OnboardingPager.Pager.ButtonText | app/src/main/java/com/project/nyam/presentation/onboarding/OnboardingScreen.kt:184-188 | "Get Started" iff on the last page |
| OnboardingPager.Pager.Next | app/src/main/java/com/project/nyam/presentation/onboarding/OnboardingScreen.kt:169-176 | Before the last page it advances by one; on the last page it finishes and stays. The index stays in 0..2 |
| OnboardingPager.Pager.Skip | app/src/main/java/com/project/nyam/presentation/onboarding/OnboardingScreen.kt:63-64 | Skip exists only before the last page and invokes the finish callback |
| OnboardingPager.PressThrough | app/src/main/java/com/project/nyam/presentation/onboarding/OnboardingScreen.kt:50-56 | From the first of the three pages, two presses reach the last page (no skip, "Get Started") and the third finishes |
| KotlinText.IntToStringRoundTrip | app/src/main/java/com/project/nyam/presentation/profile/EditProfileScreen.kt:40-41 | A printed Int parses back to itself with `toIntOrNull` |
| KotlinText.RemoveFirst | app/src/main/java/com/project/nyam/presentation/profile/EditProfileScreen.kt:177 | `list - x` drops exactly the first occurrence: the multiset loses one `x`, and a list without `x` is unchanged |
| KotlinText.Reversed | app/src/main/java/com/project/nyam/presentation/dashboard/tabs/HistoryTab.kt:40 | Same length and the same elements, index i holding the element at n−1−i |
| KotlinText.FirstWord | app/src/main/java/com/project/nyam/presentation/dashboard/DashboardScreen.kt:134 | The name's prefix before the first space, or the whole name; it never contains a space |

The longer "states" entries:

- **App.NyamApp.LoadData.**
  - No token, or an empty `tempUid`, means no fetch and no data change.
  - Profile success: the profile is replaced first, and history and recommendations
    only on their own success.
  - A throw keeps what was already assigned and adds a toast.
  - A 401 or 404 response: login, sign-out, session cleared, profile dropped.
  - Any other failing status changes nothing.
  - Every path ends not loading and invokes the callback with false.
- **Session.Saved.**
  - `user_id` and the onboarding flag are always written.
  - `user_name` is written only for a non-null name; otherwise the previous value is
    kept.
  - The four nutrition keys are written together, only for non-null needs; otherwise
    the cached targets are unchanged.
  - No other key changes.
- **Home.AllergyLayout.**
  - Zero or one allergy gives one full-width chip, marked "none" iff the list is empty.
  - An even count gives rows of two.
  - An odd count of at least three gives the first allergy alone, then rows of two.
  - The chips read back as the list in order.
- **Components.Sheet.**
  - The cuisine badge is the first cuisine, when there is one.
  - The time badge shows iff time > 0, and the weight badge iff weight > 0.
  - The meal time shows iff it is not blank.
  - The meal-type line shows iff there is a meal type.
  - The ingredient list shows iff it is non-empty.
  - The source button shows iff the URL is not blank.
- **Register.PasswordValidIff.** The Java pattern matches with `matches()` iff the
  password:
  - has at least 8 characters;
  - contains an ASCII digit, a lower-case letter, an upper-case letter and one of
    `@#$%^&+=!`;
  - contains no `\s` character and no line terminator (`.` rejects U+0085, U+2028 and
    U+2029).
- **PhysicalDataForm.Toggled.**
  - An absent item is appended.
  - A present item loses one occurrence, so the length drops by one.
  - Other items keep their membership.
  - A duplicate-free list stays duplicate-free, and the item's membership flips.
- **PhysicalDataForm.PhysicalDataForm.Complete.**
  - A null token sends nothing and completes nothing.
  - Otherwise the request is sent, and `onComplete` is called iff the response is
    successful.
  - The toast is chosen by success, status code or exception.
  - Loading is false on every path.
- **Dashboard.DashboardState.FinishUpload.**
  - Results and recognition are overwritten only when there is a multipart body and
    the response is successful. A non-null body without recipes clears the results.
  - A non-successful response gives "not recognised"; an exception gives the upload
    toast.
  - The searching flag is down on every path.

## Left out

- Compose rendering is not modelled: layout, colours, icons, images, sheets and
  dialogs as visuals, the bottom bar, the search-results page, profile and about
  screens. This covers the news tab and the search tab's own text field.
- Network, Firebase and Google sign-in, `FileUtil`, the camera and the permission
  launcher are not modelled. Tokens, replies, the current user and the picked image are
  parameters. `AuthManager.handleGoogleSignIn` is not part of this model; its result is
  an input to `Register.GoogleEffects`.
- Coroutine interleaving is not modelled. Each launched body is one atomic step, so
  overlapping `loadData` calls and races between a handler and its launch are not
  covered.
- Float and Double precision is not modelled. Ring progress and the calorie-box warning
  use exact division, so `Components.RingIsOver` and `Components.CalorieWarning` do not
  model `Int.toFloat()` rounding for totals above 2^24. Activity multipliers are the
  literal constants compared for equality.
- java.time is not modelled. The successful parse in `formatMealTime` is a parameter
  (`parsed`), as is the edit form's `LocalDate.toString()` date (`ConfirmDate`).
- Unicode digits are not modelled. `isDigit` and `toIntOrNull` accept ASCII digits
  only, whereas Kotlin also accepts other Unicode decimal digits.
- Strings are sequences of code points, not UTF-16 units.
- Toast text that embeds runtime values is reduced to its kind: the exception message
  in "Gagal: …" and the BMI status in "Berhasil! Status: …".
- The `"Bearer null"` header that cook-meal and update-TDEE send when the token is null
  is not modelled. The reply parameter stands for whatever the server answers.
- `EditProfile.EditProfileForm.Save` models `isSaving` staying true after a failed save,
  as the code has it. Nothing in the app resets it, so a failed save leaves the form
  locked.
- Pull-to-refresh indicator handling (`StartRefresh`, `RefreshFinished`) and the tab
  switch are modelled only as plain assignments.
