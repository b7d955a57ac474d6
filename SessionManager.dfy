/** The persisted session record: a key/value store (the app's DataStore
    "user_session") holding the user id, the display name, the onboarding flag and
    the cached nutrition targets. */
module Session {
  import opened KotlinText
  import opened Models

  datatype Key = UserId | UserName | IsOnboardingDone | Calories | Carbs | Protein | Fat

  /** A stored value; each key is only ever written with one kind of value. */
  datatype Pref = Str(s: string) | Flag(b: bool) | Num(n: int)

  type Prefs = map<Key, Pref>

  /** `prefs[key]` read through an `intPreferencesKey`: null when absent. */
  function GetInt(p: Prefs, k: Key): Option<int> {
    if k in p && p[k].Num? then Some(p[k].n) else None
  }

  /** `prefs[key]` read through a `booleanPreferencesKey`: null when absent. */
  function GetFlag(p: Prefs, k: Key): Option<bool> {
    if k in p && p[k].Flag? then Some(p[k].b) else None
  }

  /** The `isOnboardingDone` projection: the stored flag, false when it was never written. */
  function OnboardingDone(p: Prefs): (done: bool)
    ensures IsOnboardingDone !in p ==> !done
    ensures done <==> IsOnboardingDone in p && p[IsOnboardingDone] == Flag(true)
  {
    GetFlag(p, IsOnboardingDone).GetOr(false)
  }

  /** The `nutritionalNeeds` projection: null when calories are absent or 0, otherwise
      the four stored numbers with absent macros read as 0. */
  function CachedNeeds(p: Prefs): (r: Option<NutritionalNeeds>)
    ensures r.None? <==> GetInt(p, Calories).GetOr(0) == 0
    ensures r.Some? ==> r.value.calories == GetInt(p, Calories).value
    ensures r.Some? ==> r.value.carbs == GetInt(p, Carbs).GetOr(0)
    ensures r.Some? ==> r.value.protein == GetInt(p, Protein).GetOr(0)
    ensures r.Some? ==> r.value.fat == GetInt(p, Fat).GetOr(0)
  {
    var cal := GetInt(p, Calories).GetOr(0);
    if cal == 0 then None
    else Some(NutritionalNeeds(cal, GetInt(p, Carbs).GetOr(0), GetInt(p, Protein).GetOr(0), GetInt(p, Fat).GetOr(0)))
  }

  /** The store after `saveSession(uid, name, isDone, needs)`. */
  function Saved(p: Prefs, uid: string, name: Option<string>, isDone: bool, needs: Option<NutritionalNeeds>): (r: Prefs)
    // user_id and is_onboarding_done are always written
    ensures UserId in r && r[UserId] == Str(uid) && OnboardingDone(r) == isDone
    // user_name only when a name is given
    ensures name.Some? ==> UserName in r && r[UserName] == Str(name.value)
    ensures name.None? ==> (UserName in r <==> UserName in p) && (UserName in p ==> r[UserName] == p[UserName])
    // the four nutrition keys together, only when needs are given
    ensures needs.Some? ==> GetInt(r, Calories) == Some(needs.value.calories) && GetInt(r, Carbs) == Some(needs.value.carbs)
                            && GetInt(r, Protein) == Some(needs.value.protein) && GetInt(r, Fat) == Some(needs.value.fat)
    ensures needs.None? ==> forall k :: k in {Calories, Carbs, Protein, Fat} ==> (k in r <==> k in p) && (k in p ==> r[k] == p[k])
    ensures needs.None? ==> CachedNeeds(r) == CachedNeeds(p)
    ensures needs.Some? && needs.value.calories != 0 ==> CachedNeeds(r) == needs
    ensures needs.Some? && needs.value.calories == 0 ==> CachedNeeds(r).None?
    ensures r.Keys == p.Keys + {UserId, IsOnboardingDone} + (if name.Some? then {UserName} else {})
                      + (if needs.Some? then {Calories, Carbs, Protein, Fat} else {})
  {
    var p1 := p[UserId := Str(uid)];
    var p2 := if name.Some? then p1[UserName := Str(name.value)] else p1;
    var p3 := p2[IsOnboardingDone := Flag(isDone)];
    match needs
    case None => p3
    case Some(n) => p3[Calories := Num(n.calories)][Carbs := Num(n.carbs)][Protein := Num(n.protein)][Fat := Num(n.fat)]
  }

  /** The DataStore behind `SessionManager`; `saveSession` and `clearSession` edit it in place. */
  class SessionManager {
    var prefs: Prefs

    constructor (stored: Prefs)
      ensures prefs == stored
    {
      prefs := stored;
    }

    /** `saveSession`; the Kotlin defaults are `name = null`, `isDone = false`, `needs = null`. */
    method SaveSession(uid: string, name: Option<string>, isDone: bool, needs: Option<NutritionalNeeds>)
      modifies this
      ensures prefs == Saved(old(prefs), uid, name, isDone, needs)
    {
      prefs := prefs[UserId := Str(uid)];
      if name.Some? {
        prefs := prefs[UserName := Str(name.value)];
      }
      prefs := prefs[IsOnboardingDone := Flag(isDone)];
      if needs.Some? {
        prefs := prefs[Calories := Num(needs.value.calories)];
        prefs := prefs[Carbs := Num(needs.value.carbs)];
        prefs := prefs[Protein := Num(needs.value.protein)];
        prefs := prefs[Fat := Num(needs.value.fat)];
      }
    }

    /** `clearSession`: every key is removed. */
    method ClearSession()
      modifies this
      ensures prefs == map[]
      ensures !OnboardingDone(prefs) && CachedNeeds(prefs).None?
    {
      prefs := map[];
    }
  }

  /** Because `isDone` defaults to false, saving with the default after a completed
      onboarding turns the persisted flag back off. */
  lemma DefaultedSaveResetsOnboarding(p: Prefs, uid: string, name: Option<string>)
    requires OnboardingDone(p)
    ensures !OnboardingDone(Saved(p, uid, name, false, None))
  {
  }
}
