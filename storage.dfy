/**
 * The preference store (AsyncStorage): one device-wide mapping from string
 * keys to string values, shared by every screen. Each call is modelled as
 * one atomic step; the asynchronous API is not.
 */
module Storage {
  import opened Wrappers

  const IS_ONBOARDED_KEY := "isOnboarded"
  const FIRST_NAME_KEY := "userFirstName"
  const LAST_NAME_KEY := "userLastName"
  const EMAIL_KEY := "userEmail"
  const PHONE_KEY := "userPhone"
  const AVATAR_KEY := "userAvatar"
  const ORDER_STATUSES_KEY := "userOrderStatuses"
  const PASSWORD_CHANGES_KEY := "userPasswordChanges"
  const SPECIAL_OFFERS_KEY := "userSpecialOffers"
  const NEWSLETTER_KEY := "userNewsletter"

  /** `getItem`: the stored value, or null when the key is absent. */
  function Lookup(items: map<string, string>, key: string): Option<string>
  {
    if key in items then Some(items[key]) else None
  }

  class PreferenceStore {
    var items: map<string, string>

    constructor ()
      ensures items == map[]
    {
      items := map[];
    }

    /** `getItem`: a read, which changes nothing. */
    function GetItem(key: string): Option<string>
      reads this
    {
      Lookup(items, key)
    }

    method SetItem(key: string, value: string)
      modifies this
      ensures items == old(items)[key := value]
    {
      items := items[key := value];
    }

    method RemoveItem(key: string)
      modifies this
      ensures items == old(items) - {key}
    {
      items := items - {key};
    }

    method Clear()
      modifies this
      ensures items == map[]
    {
      items := map[];
    }
  }
}
