/**
 * The onboarding screen: two text fields and the "Next" handler, which
 * stores both and then hands control back to the root through its
 * completion callback.
 */
module Onboarding {
  import opened Wrappers
  import opened Storage
  import Gate
  import Profile

  /** The two `setItem` calls of `handleNext`, in order; no value is checked, so "" is stored as it is. */
  function Submitted(items: map<string, string>, firstName: string, email: string): map<string, string>
  {
    items[FIRST_NAME_KEY := firstName][EMAIL_KEY := email]
  }

  /** The submit writes exactly the first name and the email; every other key, `isOnboarded` included, keeps its value. */
  lemma SubmittedKeys(items: map<string, string>, firstName: string, email: string)
    ensures Submitted(items, firstName, email).Keys == items.Keys + {FIRST_NAME_KEY, EMAIL_KEY}
    ensures Lookup(Submitted(items, firstName, email), FIRST_NAME_KEY) == Some(firstName)
    ensures Lookup(Submitted(items, firstName, email), EMAIL_KEY) == Some(email)
    ensures forall k :: k in items && k != FIRST_NAME_KEY && k != EMAIL_KEY ==> Submitted(items, firstName, email)[k] == items[k]
    ensures Lookup(Submitted(items, firstName, email), IS_ONBOARDED_KEY) == Lookup(items, IS_ONBOARDED_KEY)
  {
  }

  /**
   * What onboarding hands to the profile screen: after the submit and the
   * root's completion handler, a freshly mounted profile shows the entered
   * first name and email, empty ones included, and the root resolves to
   * onboarded.
   */
  lemma OnboardingThenProfile(items: map<string, string>, firstName: string, email: string)
    ensures Profile.Loaded(Submitted(items, firstName, email)[IS_ONBOARDED_KEY := "true"]).firstName == firstName
    ensures Profile.Loaded(Submitted(items, firstName, email)[IS_ONBOARDED_KEY := "true"]).email == email
    ensures Gate.StoredOnboarded(Submitted(items, firstName, email)[IS_ONBOARDED_KEY := "true"])
  {
  }

  class OnboardingScreen {
    var firstName: string
    var email: string
    const store: PreferenceStore

    constructor (store: PreferenceStore)
      ensures firstName == "" && email == ""
      ensures this.store == store
    {
      firstName, email := "", "";
      this.store := store;
    }

    /** The first-name input's `onChangeText`. */
    method EditFirstName(text: string)
      modifies this
      ensures firstName == text && email == old(email)
    {
      firstName := text;
    }

    /** The email input's `onChangeText`. */
    method EditEmail(text: string)
      modifies this
      ensures email == text && firstName == old(firstName)
    {
      email := text;
    }

    /**
     * The "Next" handler: store the first name, then the email, then call
     * `onComplete`, which the root wires to its completion handler.
     */
    method HandleNext(onComplete: Gate.OnboardingGate)
      requires onComplete.store == store
      modifies store, onComplete
      ensures store.items == Submitted(old(store.items), firstName, email)[IS_ONBOARDED_KEY := "true"]
      ensures onComplete.isOnboarded == Some(true) && onComplete.Screen() == Gate.ProfileWithLogout
    {
      store.SetItem(FIRST_NAME_KEY, firstName);
      store.SetItem(EMAIL_KEY, email);
      onComplete.HandleOnboardingComplete();
    }
  }
}
