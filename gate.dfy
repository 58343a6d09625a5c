/**
 * The root component: a three-valued onboarding state resolved once from
 * the preference store, and the choice of screen it makes.
 */
module Gate {
  import opened Wrappers
  import opened Storage

  /** What the root renders, with the handler it passes down. */
  datatype Screen = Splash | ProfileWithLogout | OnboardingWithComplete

  /** The value the mount effect resolves to: only the exact string "true" counts as onboarded. */
  function StoredOnboarded(items: map<string, string>): (onboarded: bool)
    ensures onboarded <==> IS_ONBOARDED_KEY in items && items[IS_ONBOARDED_KEY] == "true"
  {
    Lookup(items, IS_ONBOARDED_KEY) == Some("true")
  }

  /** The render choice: splash while unresolved, Profile when onboarded, Onboarding otherwise. */
  function Render(state: Option<bool>): (screen: Screen)
    ensures screen == Splash <==> state == None
    ensures screen == ProfileWithLogout <==> state == Some(true)
    ensures screen == OnboardingWithComplete <==> state == Some(false)
  {
    match state
    case None => Splash
    case Some(true) => ProfileWithLogout
    case Some(false) => OnboardingWithComplete
  }

  /** After onboarding completes, a fresh resolution finds the user onboarded, whatever else the store holds. */
  lemma ResolveAfterComplete(items: map<string, string>)
    ensures StoredOnboarded(items[IS_ONBOARDED_KEY := "true"])
  {
  }

  /** After the store is wiped, a fresh resolution sends the user to onboarding. */
  lemma ResolveAfterClear()
    ensures !StoredOnboarded(map[])
  {
  }

  /** Any other stored string, "True" or "1" included, reads as not onboarded. */
  lemma ResolveOtherString(items: map<string, string>, value: string)
    requires value != "true"
    ensures !StoredOnboarded(items[IS_ONBOARDED_KEY := value])
  {
  }

  class OnboardingGate {
    var isOnboarded: Option<bool>
    const store: PreferenceStore

    constructor (store: PreferenceStore)
      ensures isOnboarded == None && Screen() == Splash
      ensures this.store == store
    {
      isOnboarded := None;
      this.store := store;
    }

    function Screen(): Screen
      reads this
    {
      Render(isOnboarded)
    }

    /** The mount effect: `getItem("isOnboarded")` then `setIsOnboarded(value === "true")`. */
    method Resolve()
      modifies this
      ensures isOnboarded == Some(StoredOnboarded(store.items))
      ensures Screen() != Splash
    {
      var value := store.GetItem(IS_ONBOARDED_KEY);
      isOnboarded := Some(value == Some("true"));
    }

    /** `handleOnboardingComplete`: persist the flag, then show Profile. */
    method HandleOnboardingComplete()
      modifies this, store
      ensures store.items == old(store.items)[IS_ONBOARDED_KEY := "true"]
      ensures isOnboarded == Some(true) && Screen() == ProfileWithLogout
      ensures StoredOnboarded(store.items)
    {
      store.SetItem(IS_ONBOARDED_KEY, "true");
      isOnboarded := Some(true);
    }

    /** `handleLogout`: wipe the whole store, then show Onboarding. */
    method HandleLogout()
      modifies this, store
      ensures store.items == map[]
      ensures isOnboarded == Some(false) && Screen() == OnboardingWithComplete
      ensures !StoredOnboarded(store.items)
    {
      store.Clear();
      isOnboarded := Some(false);
    }
  }
}
