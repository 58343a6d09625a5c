/**
 * The profile screen: nine fields loaded from the preference store with
 * defaults, saved back key by key, the avatar picker and its removal, the
 * phone-length guard and logout.
 */
module Profile {
  import opened Wrappers
  import opened Storage
  import Text
  import Gate

  /** The screen's nine state fields. */
  datatype UserProfile = UserProfile(
    firstName: string,
    lastName: string,
    email: string,
    phone: string,
    avatar: Option<string>,
    orderStatuses: bool,
    passwordChanges: bool,
    specialOffers: bool,
    newsletter: bool)

  /** The initial `useState` values: empty texts, no avatar, every notification on. */
  const DEFAULT_PROFILE := UserProfile("", "", "", "", None, true, true, true, true)

  /** The keys the save handler writes. */
  const PROFILE_KEYS: set<string> := {
    AVATAR_KEY, FIRST_NAME_KEY, LAST_NAME_KEY, EMAIL_KEY, PHONE_KEY,
    ORDER_STATUSES_KEY, PASSWORD_CHANGES_KEY, SPECIAL_OFFERS_KEY, NEWSLETTER_KEY
  }

  const MAX_PHONE_DIGITS := 10

  /** The four notification keys, in the order `loadUserData` applies them. */
  const FLAG_KEYS: seq<string> := [ORDER_STATUSES_KEY, PASSWORD_CHANGES_KEY, SPECIAL_OFFERS_KEY, NEWSLETTER_KEY]

  /** `JSON.stringify` of a flag. */
  function FlagText(b: bool): string
  {
    if b then "true" else "false"
  }

  /** `JSON.parse` of a stored flag: the two literals parse; any other text is taken as a parse error. */
  function ParseFlag(s: string): (r: Option<bool>)
    ensures r == Some(true) <==> s == "true"
    ensures r == Some(false) <==> s == "false"
  {
    if s == "true" then Some(true)
    else if s == "false" then Some(false)
    else None
  }

  lemma ParseFlagText(b: bool)
    ensures ParseFlag(FlagText(b)) == Some(b)
  {
  }

  /** `if (stored) setField(stored)`: only a present, non-empty value replaces the field. */
  function TextOr(stored: Option<string>, current: string): string
  {
    if stored.Some? && stored.value != "" then stored.value else current
  }

  /** The avatar's `if (stored) setAvatar(stored)`: a present, non-empty URI replaces it. */
  function AvatarOr(stored: Option<string>, current: Option<string>): Option<string>
  {
    if stored.Some? && stored.value != "" then stored else current
  }

  /** A present flag whose `JSON.parse` throws, ending `loadUserData` there. */
  predicate Unparseable(stored: Option<string>)
  {
    stored.Some? && ParseFlag(stored.value).None?
  }

  /** `if (stored !== null) setFlag(JSON.parse(stored))`, for a value that parses. */
  function FlagOr(stored: Option<string>, current: bool): bool
  {
    if stored.Some? && ParseFlag(stored.value).Some? then ParseFlag(stored.value).value else current
  }

  /**
   * How many of the four flag setters of `loadUserData` run: they run in
   * order, and the first stored flag that `JSON.parse` rejects ends the load.
   */
  function FlagsApplied(items: map<string, string>): (n: nat)
    ensures n <= 4
    ensures forall j :: 0 <= j < n ==> !Unparseable(Lookup(items, FLAG_KEYS[j]))
    ensures n < 4 ==> Unparseable(Lookup(items, FLAG_KEYS[n]))
  {
    if Unparseable(Lookup(items, ORDER_STATUSES_KEY)) then 0
    else if Unparseable(Lookup(items, PASSWORD_CHANGES_KEY)) then 1
    else if Unparseable(Lookup(items, SPECIAL_OFFERS_KEY)) then 2
    else if Unparseable(Lookup(items, NEWSLETTER_KEY)) then 3
    else 4
  }

  /**
   * The screen state `p` after the reads of `loadUserData` and its setters up
   * to the `n`-th flag: each text and the avatar is replaced by a present
   * non-empty stored value, and each of the first `n` flags by its stored
   * value when present.
   */
  function LoadStage(p: UserProfile, items: map<string, string>, n: nat): UserProfile
  {
    UserProfile(
      TextOr(Lookup(items, FIRST_NAME_KEY), p.firstName),
      TextOr(Lookup(items, LAST_NAME_KEY), p.lastName),
      TextOr(Lookup(items, EMAIL_KEY), p.email),
      TextOr(Lookup(items, PHONE_KEY), p.phone),
      AvatarOr(Lookup(items, AVATAR_KEY), p.avatar),
      if n > 0 then FlagOr(Lookup(items, ORDER_STATUSES_KEY), p.orderStatuses) else p.orderStatuses,
      if n > 1 then FlagOr(Lookup(items, PASSWORD_CHANGES_KEY), p.passwordChanges) else p.passwordChanges,
      if n > 2 then FlagOr(Lookup(items, SPECIAL_OFFERS_KEY), p.specialOffers) else p.specialOffers,
      if n > 3 then FlagOr(Lookup(items, NEWSLETTER_KEY), p.newsletter) else p.newsletter)
  }

  /** `loadUserData` applied to the screen state `p`: every stage up to the first flag that does not parse. */
  function LoadInto(p: UserProfile, items: map<string, string>): UserProfile
  {
    LoadStage(p, items, FlagsApplied(items))
  }

  /** What the screen shows after mounting over the store `items`. */
  function Loaded(items: map<string, string>): UserProfile
  {
    LoadInto(DEFAULT_PROFILE, items)
  }

  /** The save handler's nine `setItem` calls, in order. */
  function Saved(items: map<string, string>, p: UserProfile): map<string, string>
  {
    items
      [AVATAR_KEY := p.avatar.GetOr("")]
      [FIRST_NAME_KEY := p.firstName]
      [LAST_NAME_KEY := p.lastName]
      [EMAIL_KEY := p.email]
      [PHONE_KEY := p.phone]
      [ORDER_STATUSES_KEY := FlagText(p.orderStatuses)]
      [PASSWORD_CHANGES_KEY := FlagText(p.passwordChanges)]
      [SPECIAL_OFFERS_KEY := FlagText(p.specialOffers)]
      [NEWSLETTER_KEY := FlagText(p.newsletter)]
  }

  /** An empty avatar string is stored as "" and so reads back as no avatar. */
  function Normalized(p: UserProfile): UserProfile
  {
    if p.avatar == Some("") then p.(avatar := None) else p
  }

  /** On mount, each text field is its stored value or "" when absent; the avatar is present only when stored non-empty. */
  lemma LoadedTexts(items: map<string, string>)
    ensures Loaded(items).firstName == (if FIRST_NAME_KEY in items then items[FIRST_NAME_KEY] else "")
    ensures Loaded(items).lastName == (if LAST_NAME_KEY in items then items[LAST_NAME_KEY] else "")
    ensures Loaded(items).email == (if EMAIL_KEY in items then items[EMAIL_KEY] else "")
    ensures Loaded(items).phone == (if PHONE_KEY in items then items[PHONE_KEY] else "")
    ensures Loaded(items).avatar == (if AVATAR_KEY in items && items[AVATAR_KEY] != "" then Some(items[AVATAR_KEY]) else None)
  {
  }

  /** When every stored flag parses, each flag is its stored value, and true when absent. */
  lemma LoadedFlags(items: map<string, string>)
    requires forall k :: k in {ORDER_STATUSES_KEY, PASSWORD_CHANGES_KEY, SPECIAL_OFFERS_KEY, NEWSLETTER_KEY} && k in items ==> items[k] == "true" || items[k] == "false"
    ensures Loaded(items).orderStatuses == (ORDER_STATUSES_KEY !in items || items[ORDER_STATUSES_KEY] == "true")
    ensures Loaded(items).passwordChanges == (PASSWORD_CHANGES_KEY !in items || items[PASSWORD_CHANGES_KEY] == "true")
    ensures Loaded(items).specialOffers == (SPECIAL_OFFERS_KEY !in items || items[SPECIAL_OFFERS_KEY] == "true")
    ensures Loaded(items).newsletter == (NEWSLETTER_KEY !in items || items[NEWSLETTER_KEY] == "true")
  {
  }

  /**
   * When the stored order-status flag does not parse, the mount still loads
   * the texts and the avatar, and every flag keeps the screen's value.
   */
  lemma LoadAbortsAtFirstFlag(p: UserProfile, items: map<string, string>)
    requires Unparseable(Lookup(items, ORDER_STATUSES_KEY))
    ensures LoadInto(p, items).firstName == TextOr(Lookup(items, FIRST_NAME_KEY), p.firstName)
    ensures LoadInto(p, items).lastName == TextOr(Lookup(items, LAST_NAME_KEY), p.lastName)
    ensures LoadInto(p, items).email == TextOr(Lookup(items, EMAIL_KEY), p.email)
    ensures LoadInto(p, items).phone == TextOr(Lookup(items, PHONE_KEY), p.phone)
    ensures LoadInto(p, items).avatar == AvatarOr(Lookup(items, AVATAR_KEY), p.avatar)
    ensures LoadInto(p, items).orderStatuses == p.orderStatuses
    ensures LoadInto(p, items).passwordChanges == p.passwordChanges
    ensures LoadInto(p, items).specialOffers == p.specialOffers
    ensures LoadInto(p, items).newsletter == p.newsletter
  {
  }

  /** A flag after the first one that does not parse keeps the screen's value, whatever is stored for it. */
  lemma LoadKeepsLaterFlags(p: UserProfile, items: map<string, string>)
    requires Unparseable(Lookup(items, PASSWORD_CHANGES_KEY))
    ensures LoadInto(p, items).specialOffers == p.specialOffers
    ensures LoadInto(p, items).newsletter == p.newsletter
    ensures LoadInto(p, items).passwordChanges == p.passwordChanges
  {
  }

  /** After logout wiped the store, the screen mounts with every default. */
  lemma LoadedAfterClear()
    ensures Loaded(map[]) == DEFAULT_PROFILE
  {
  }

  /** Save writes the nine profile keys and leaves every other key, `isOnboarded` included, as it was. */
  lemma SavedKeys(items: map<string, string>, p: UserProfile)
    ensures Saved(items, p).Keys == items.Keys + PROFILE_KEYS
    ensures forall k :: k in items && k !in PROFILE_KEYS ==> Saved(items, p)[k] == items[k]
    ensures IS_ONBOARDED_KEY !in PROFILE_KEYS
  {
  }

  /** Saving and then mounting the screen again shows what was saved. */
  lemma SaveLoadRoundTrip(items: map<string, string>, p: UserProfile)
    ensures Loaded(Saved(items, p)) == Normalized(p)
  {
    var s := Saved(items, p);
    assert Lookup(s, FIRST_NAME_KEY) == Some(p.firstName);
    assert Lookup(s, LAST_NAME_KEY) == Some(p.lastName);
    assert Lookup(s, EMAIL_KEY) == Some(p.email);
    assert Lookup(s, PHONE_KEY) == Some(p.phone);
    assert Lookup(s, AVATAR_KEY) == Some(p.avatar.GetOr(""));
    assert Lookup(s, ORDER_STATUSES_KEY) == Some(FlagText(p.orderStatuses));
    assert Lookup(s, PASSWORD_CHANGES_KEY) == Some(FlagText(p.passwordChanges));
    assert Lookup(s, SPECIAL_OFFERS_KEY) == Some(FlagText(p.specialOffers));
    assert Lookup(s, NEWSLETTER_KEY) == Some(FlagText(p.newsletter));
  }

  /** One picked image as the picker reports it. */
  datatype Asset = Asset(uri: string)

  /** The image picker's answer: cancelled or not, and the assets, which may be missing. */
  datatype PickerResult = PickerResult(canceled: bool, assets: Option<seq<Asset>>)

  /** The URI `pickImage` adopts: the first asset's, when the pick was not cancelled and returned one. */
  function PickedUri(result: PickerResult): (uri: Option<string>)
    ensures uri.Some? <==> !result.canceled && result.assets.Some? && |result.assets.value| > 0
    ensures uri.Some? ==> uri.value == result.assets.value[0].uri
  {
    if !result.canceled && result.assets.Some? && |result.assets.value| > 0
    then Some(result.assets.value[0].uri)
    else None
  }

  /** The phone field's `onChangeText`: raw text of at most ten digits replaces the phone, longer text is ignored. */
  function AcceptPhone(current: string, rawText: string): (phone: string)
    ensures phone == rawText || phone == current
    ensures phone == rawText <==> |rawText| <= MAX_PHONE_DIGITS || rawText == current
  {
    if |rawText| <= MAX_PHONE_DIGITS then rawText else current
  }

  /** A phone of at most ten digits stays so through any edit. */
  lemma AcceptPhoneBounded(current: string, rawText: string)
    requires |current| <= MAX_PHONE_DIGITS
    ensures |AcceptPhone(current, rawText)| <= MAX_PHONE_DIGITS
  {
  }

  class ProfileScreen {
    var firstName: string
    var lastName: string
    var email: string
    var phone: string
    var avatar: Option<string>
    var orderStatuses: bool
    var passwordChanges: bool
    var specialOffers: bool
    var newsletter: bool
    const store: PreferenceStore

    function Snapshot(): UserProfile
      reads this
    {
      UserProfile(firstName, lastName, email, phone, avatar,
                  orderStatuses, passwordChanges, specialOffers, newsletter)
    }

    /** `getInitials` of the header placeholder, over the screen's own names. */
    function Initials(): (r: string)
      reads this
      ensures |r| <= 2
      ensures r == "" <==> firstName == "" && lastName == ""
    {
      Text.Initials(firstName, lastName)
    }

    constructor (store: PreferenceStore)
      ensures Snapshot() == DEFAULT_PROFILE
      ensures this.store == store
    {
      firstName, lastName, email, phone := "", "", "", "";
      avatar := None;
      orderStatuses, passwordChanges, specialOffers, newsletter := true, true, true, true;
      this.store := store;
    }

    /**
     * The mount effect `loadUserData`: nine reads, then the setters in order.
     * The setters' updates are collected in `next` and committed together,
     * as React applies queued state updates at the next render; when
     * `JSON.parse` throws on a flag, the updates queued before it still apply.
     */
    method LoadUserData()
      modifies this
      ensures Snapshot() == LoadInto(old(Snapshot()), store.items)
    {
      ghost var items := store.items;
      ghost var start := Snapshot();
      var storedFirstName := store.GetItem(FIRST_NAME_KEY);
      var storedLastName := store.GetItem(LAST_NAME_KEY);
      var storedEmail := store.GetItem(EMAIL_KEY);
      var storedPhone := store.GetItem(PHONE_KEY);
      var storedAvatar := store.GetItem(AVATAR_KEY);
      var storedOrderStatuses := store.GetItem(ORDER_STATUSES_KEY);
      var storedPasswordChanges := store.GetItem(PASSWORD_CHANGES_KEY);
      var storedSpecialOffers := store.GetItem(SPECIAL_OFFERS_KEY);
      var storedNewsletter := store.GetItem(NEWSLETTER_KEY);

      var next := Snapshot();
      next := next.(firstName := TextOr(storedFirstName, next.firstName));
      next := next.(lastName := TextOr(storedLastName, next.lastName));
      next := next.(email := TextOr(storedEmail, next.email));
      next := next.(phone := TextOr(storedPhone, next.phone));
      next := next.(avatar := AvatarOr(storedAvatar, next.avatar));
      assert next == LoadStage(start, items, 0);
      if Unparseable(storedOrderStatuses) {
        SetState(next);
        return;
      }
      next := next.(orderStatuses := FlagOr(storedOrderStatuses, next.orderStatuses));
      assert next == LoadStage(start, items, 1);
      if Unparseable(storedPasswordChanges) {
        SetState(next);
        return;
      }
      next := next.(passwordChanges := FlagOr(storedPasswordChanges, next.passwordChanges));
      assert next == LoadStage(start, items, 2);
      if Unparseable(storedSpecialOffers) {
        SetState(next);
        return;
      }
      next := next.(specialOffers := FlagOr(storedSpecialOffers, next.specialOffers));
      assert next == LoadStage(start, items, 3);
      if Unparseable(storedNewsletter) {
        SetState(next);
        return;
      }
      next := next.(newsletter := FlagOr(storedNewsletter, next.newsletter));
      assert next == LoadStage(start, items, 4);
      SetState(next);
    }

    /** The re-render that applies the queued state updates. */
    method SetState(p: UserProfile)
      modifies this
      ensures Snapshot() == p
    {
      firstName, lastName, email, phone, avatar := p.firstName, p.lastName, p.email, p.phone, p.avatar;
      orderStatuses, passwordChanges := p.orderStatuses, p.passwordChanges;
      specialOffers, newsletter := p.specialOffers, p.newsletter;
    }

    /** The "Save changes" handler. */
    method Save()
      modifies store
      ensures store.items == Saved(old(store.items), Snapshot())
    {
      store.SetItem(AVATAR_KEY, avatar.GetOr(""));
      store.SetItem(FIRST_NAME_KEY, firstName);
      store.SetItem(LAST_NAME_KEY, lastName);
      store.SetItem(EMAIL_KEY, email);
      store.SetItem(PHONE_KEY, phone);
      store.SetItem(ORDER_STATUSES_KEY, FlagText(orderStatuses));
      store.SetItem(PASSWORD_CHANGES_KEY, FlagText(passwordChanges));
      store.SetItem(SPECIAL_OFFERS_KEY, FlagText(specialOffers));
      store.SetItem(NEWSLETTER_KEY, FlagText(newsletter));
    }

    /** `pickImage`: a usable pick becomes both the shown avatar and the stored one; otherwise nothing changes. */
    method PickImage(result: PickerResult)
      modifies this, store
      ensures PickedUri(result).None? ==> Snapshot() == old(Snapshot()) && store.items == old(store.items)
      ensures PickedUri(result).Some? ==>
        && Snapshot() == old(Snapshot()).(avatar := PickedUri(result))
        && store.items == old(store.items)[AVATAR_KEY := PickedUri(result).value]
    {
      if !result.canceled && result.assets.Some? && |result.assets.value| > 0 {
        avatar := Some(result.assets.value[0].uri);
        store.SetItem(AVATAR_KEY, result.assets.value[0].uri);
      }
    }

    /** `removeAvatar`: no avatar shown, and only the avatar key is removed from the store. */
    method RemoveAvatar()
      modifies this, store
      ensures Snapshot() == old(Snapshot()).(avatar := None)
      ensures store.items == old(store.items) - {AVATAR_KEY}
      ensures Loaded(store.items).avatar == None
    {
      avatar := None;
      store.RemoveItem(AVATAR_KEY);
    }

    /** The phone input's change handler, given the unmasked text. */
    method EditPhone(rawText: string)
      modifies this
      ensures Snapshot() == old(Snapshot()).(phone := AcceptPhone(old(phone), rawText))
      ensures |old(phone)| <= MAX_PHONE_DIGITS ==> |phone| <= MAX_PHONE_DIGITS
    {
      if |rawText| <= MAX_PHONE_DIGITS {
        phone := rawText;
      }
    }

    /**
     * The "Log out" handler: wipe the store, then call `onLogout` when the
     * screen was given one (the root gives it; a Profile opened from Home
     * has none).
     */
    method Logout(onLogout: Gate.OnboardingGate?)
      requires onLogout != null ==> onLogout.store == store
      modifies store, onLogout
      ensures store.items == map[]
      ensures onLogout != null ==> onLogout.isOnboarded == Some(false)
      ensures Loaded(store.items) == DEFAULT_PROFILE && !Gate.StoredOnboarded(store.items)
    {
      store.Clear();
      if onLogout != null {
        onLogout.HandleLogout();
      }
    }
  }
}
