# Little Lemon: verified model of the app's screen logic

This project models the logic of four screens of the Little Lemon restaurant
app, a React Native client. The app's device storage (AsyncStorage) becomes a
key-to-string map held in a `PreferenceStore` object. The local SQLite `menu`
table becomes a `MenuTable` object holding its rows in insertion order.

- `wrappers.dfy`: `Option`.
- `text.dfy`: an ASCII case map, the substring test behind
  `String.prototype.includes`, and `getInitials`. Home and Profile share the
  same `getInitials` body.
- `storage.dfy`: the store and its key constants. It supports
  `getItem`, `setItem`, `removeItem` and `clear`.
- `home.tsx` → `home.dfy`. It covers:
  - the category filter and search filter over the cached menu;
  - the category toggle;
  - the image URL;
  - the menu table;
  - the menu-loading state machine, which shows cached rows or fills an
    empty table once from the remote menu.
- `index.tsx` → `gate.dfy`. This is the root component. Its onboarding state
  is null, false or true and is resolved once from `isOnboarded`. It covers
  the completion and logout handlers and the choice of screen.
- `profile.tsx` → `profile.dfy`. It covers:
  - loading the nine profile fields, with defaults;
  - the save handler;
  - picking and removing the avatar;
  - the phone-length guard;
  - logout.
- `onboarding.tsx` → `onboarding.dfy`. This is the "Next" handler. It stores
  the first name and email, then calls the completion callback.

Stateful code takes the form of classes, with `modifies` clauses on their
handlers:
- the screens' `useState` fields;
- the store;
- the table.

Each handler's postcondition gives the new state as a function of the old
one. The properties are stated about those functions: the filter, toggle,
load, save and submit functions. The remote fetch and the first `SELECT`'s
error callback become inputs, a `FetchOutcome` and a `selectFails` flag.

Behaviour of the code that a casual reading might miss:
- **The toggle is not involutive.** Pressing the same category twice clears
  the selection only if that category was not already selected. If it was
  selected, the first press clears it and the second press selects it again
  (`ToggleTwice`).
- **Only valid flags load completely.** A stored notification flag that is
  not JSON text makes `JSON.parse` throw, which ends `loadUserData`. The model
  treats every text other than the two literals `"true"` and `"false"` that
  way. The setters that ran before the throw still apply, and the later flags
  keep their values (`FlagsApplied`, `LoadAbortsAtFirstFlag`,
  `LoadKeepsLaterFlags`). The app itself only ever stores the two literals.
- **An empty avatar is saved as "".** Save stores a missing avatar as `""`,
  and load ignores empty strings. So a round trip turns an avatar of `""`
  into no avatar (`Normalized`).
- **Onboarded users see Profile.** When the user is onboarded, the root
  renders the Profile screen, not Home.

## Model

| member | source | states |
|---|---|---|
| Text.Lower | little-lemon/app/home.tsx:131-132 | `toLowerCase` keeps the length, turns each upper-case ASCII letter into the lower-case letter at the same place in the alphabet, and keeps every other character |
| Text.ContainsIffOccurs | little-lemon/app/home.tsx:132 | `includes` holds exactly when the search text occurs at some position of the name |
| Text.ContainsNeedsFirstChar | little-lemon/app/home.tsx:132 | a name that includes a non-empty search text contains its first character |
| Text.Initials | little-lemon/app/home.tsx:122-126 | at most two characters, one for each non-empty name; the first is the upper-cased first letter of the first name and the last is that of the last name; `""` exactly when both names are empty; no lower-case letter |
| Profile.ProfileScreen.Initials | little-lemon/app/profile.tsx:83-87 | the profile header's initials have at most two characters and are empty exactly when both names are |
| Home.FilterMenu | little-lemon/app/home.tsx:128-133 | a row is shown exactly when it is in the menu and its category is unset or equal to the lower-cased selection and its lower-cased name includes the lower-cased search; each matching row is kept exactly as many times as the menu holds it and a non-matching one not at all; never more rows than the menu |
| Home.FilterIsSubsequence | little-lemon/app/home.tsx:128-133 | the shown rows are an order-preserving subsequence of the cached menu |
| Home.FilterUnfiltered | little-lemon/app/home.tsx:128-133 | with no category and an empty search, the menu is shown unchanged |
| Home.GreekSaladScenario | little-lemon/app/home.tsx:128-133 | with a one-dish cache, the selection "Starters" and the search "greek" show the Greek Salad; the search "pizza" shows nothing |
| Home.NotContainsWithoutFirstChar | little-lemon/app/home.tsx:132 | a name lacking the first letter of the search text is filtered out |
| Home.ToggleRule | little-lemon/app/home.tsx:200-202 | pressing a button clears the selection exactly when it was the selected one, and otherwise selects it |
| Home.ToggleTwice | little-lemon/app/home.tsx:200-202 | two presses of the same button end with no selection when it was not selected before, and on that button when it was |
| Home.ToggleKeepsSelection | little-lemon/app/home.tsx:200-202 | the selection stays one of the four labels or `""` |
| Home.HomeScreen.constructor | little-lemon/app/home.tsx:22-28 | the screen starts with "Starters" selected, an empty search, an empty menu and `loading` set |
| Home.HomeScreen.PressCategory | little-lemon/app/home.tsx:200-202 | the selection becomes `Toggle` of the old one (see `Home.ToggleRule`), stays a valid selection, and nothing else changes |
| Home.HomeScreen.SetSearch | little-lemon/app/home.tsx:183 | only the search text changes |
| Home.ImageUrl | little-lemon/app/home.tsx:135-136 | the URL starts with the fixed image base and the file name can be read back after it |
| Home.ImageUrlInjective | little-lemon/app/home.tsx:135-136 | different file names give different URLs |
| Home.MenuTable.constructor | little-lemon/app/home.tsx:30-43 | a freshly created table is empty |
| Home.MenuTable.SelectAll | little-lemon/app/home.tsx:61 | `SELECT *` returns the rows in insertion order |
| Home.MenuTable.Insert | little-lemon/app/home.tsx:89-98 | the item is appended under a fresh id, and ids stay increasing |
| Home.HomeScreen.LoadMenu | little-lemon/app/home.tsx:57-77 | `loading` ends cleared. A failed read changes nothing else. A non-empty table is shown unchanged with no insert. An empty table plus a failed fetch shows an empty menu and leaves the table empty. An empty table plus a successful fetch leaves the table holding exactly the fetched items and shows it |
| Home.HomeScreen.FetchAndStoreMenu | little-lemon/app/home.tsx:79-116 | each fetched item is appended in order after the existing rows, then the table is shown; a failed fetch shows an empty menu and leaves the table unchanged; `loading` ends cleared |
| Gate.StoredOnboarded | little-lemon/app/index.tsx:12-13 | resolution gives true exactly when `isOnboarded` is stored as the string "true" |
| Gate.Render | little-lemon/app/index.tsx:22-35 | Splash exactly while unresolved, Profile with the logout handler exactly when onboarded, Onboarding with the completion handler exactly when not |
| Gate.ResolveAfterComplete | little-lemon/app/index.tsx:17-20 | after completion, a later resolution gives onboarded whatever else is stored |
| Gate.ResolveAfterClear | little-lemon/app/index.tsx:26-29 | after the store is wiped, a later resolution gives not onboarded |
| Gate.ResolveOtherString | little-lemon/app/index.tsx:13 | any other stored string, such as "True" or "1", gives not onboarded |
| Gate.OnboardingGate.constructor | little-lemon/app/index.tsx:9 | the state starts unresolved, and the splash screen is shown |
| Gate.OnboardingGate.Resolve | little-lemon/app/index.tsx:11-15 | the state becomes the stored-flag test and is never unresolved afterwards |
| Gate.OnboardingGate.HandleOnboardingComplete | little-lemon/app/index.tsx:17-20 | stores "true" under `isOnboarded` and nothing else; the state becomes true and Profile is shown |
| Gate.OnboardingGate.HandleLogout | little-lemon/app/index.tsx:26-29 | empties the store; the state becomes false and Onboarding is shown |
| Profile.ParseFlag | little-lemon/app/profile.tsx:53-60 | `JSON.parse` gives true exactly for "true" and false exactly for "false" |
| Profile.ParseFlagText | little-lemon/app/profile.tsx:213-216 | parsing a stringified flag gives the flag back |
| Profile.FlagsApplied | little-lemon/app/profile.tsx:53-60 | the number of flag setters that run is at most four; every flag before that number parses, and when it is below four the flag at that position does not |
| Profile.LoadAbortsAtFirstFlag | little-lemon/app/profile.tsx:48-54 | when the stored order-status flag does not parse, the mount still loads the texts and avatar and keeps all four flags of the screen |
| Profile.LoadKeepsLaterFlags | little-lemon/app/profile.tsx:53-60 | when the stored password-change flag does not parse, it and the two later flags keep the screen's values |
| Profile.LoadedTexts | little-lemon/app/profile.tsx:48-52 | on mount, each text field is its stored value, or `""` when absent; the avatar is present only when stored non-empty |
| Profile.LoadedFlags | little-lemon/app/profile.tsx:53-60 | when every stored flag parses, each flag is its stored value, or true when absent |
| Profile.LoadedAfterClear | little-lemon/app/profile.tsx:20-28 | over an empty store the screen shows every default |
| Profile.SavedKeys | little-lemon/app/profile.tsx:207-229 | save writes exactly the nine profile keys; every other key, `isOnboarded` included, keeps its value |
| Profile.SaveLoadRoundTrip | little-lemon/app/profile.tsx:30-63 | mounting after a save shows what was saved, with an avatar of `""` read back as none |
| Profile.ProfileScreen.constructor | little-lemon/app/profile.tsx:20-28 | the screen starts with empty texts, no avatar and every notification on |
| Profile.ProfileScreen.LoadUserData | little-lemon/app/profile.tsx:30-63 | the screen state becomes `LoadInto` of the store over the old state: present non-empty texts and avatar replace the fields, and flags are replaced up to the first that does not parse (properties of `LoadInto` in `Profile.LoadedTexts`, `Profile.LoadedFlags`, `Profile.LoadAbortsAtFirstFlag` and `Profile.SaveLoadRoundTrip`) |
| Profile.ProfileScreen.SetState | little-lemon/app/profile.tsx:48-60 | the queued setter values become the screen state |
| Profile.ProfileScreen.Save | little-lemon/app/profile.tsx:207-229 | the store becomes `Saved`, the nine writes over the old store (properties of `Saved` in `Profile.SavedKeys` and `Profile.SaveLoadRoundTrip`) |
| Profile.PickedUri | little-lemon/app/profile.tsx:72-73 | a URI is adopted exactly when the pick was not cancelled and returned at least one asset, and it is the first asset's |
| Profile.ProfileScreen.PickImage | little-lemon/app/profile.tsx:65-76 | a usable pick sets both the avatar and the stored `userAvatar` to the first asset's URI; otherwise nothing changes |
| Profile.ProfileScreen.RemoveAvatar | little-lemon/app/profile.tsx:78-81 | the avatar becomes none, only `userAvatar` is removed from the store, and a later load shows no avatar |
| Profile.AcceptPhone | little-lemon/app/profile.tsx:162-164 | raw text of at most ten characters becomes the phone; longer text leaves it unchanged |
| Profile.AcceptPhoneBounded | little-lemon/app/profile.tsx:162-164 | a phone of at most ten characters stays so through any edit |
| Profile.ProfileScreen.EditPhone | little-lemon/app/profile.tsx:162-164 | only the phone changes, by the length guard, and its bound is kept |
| Profile.ProfileScreen.Logout | little-lemon/app/profile.tsx:191-194 | the store is empty afterwards, even after the gate clears it again; when given, the gate shows Onboarding; a later mount shows the defaults and resolves to not onboarded |
| Onboarding.SubmittedKeys | little-lemon/app/onboarding.tsx:16-18 | the submit stores the entered first name and email as they are, empty or not, and writes no other key, `isOnboarded` included |
| Onboarding.OnboardingThenProfile | little-lemon/app/onboarding.tsx:16-20 | after the submit and the completion handler, a fresh profile shows the entered first name and email, and the root resolves to onboarded |
| Onboarding.OnboardingScreen.constructor | little-lemon/app/onboarding.tsx:13-14 | both inputs start empty |
| Onboarding.OnboardingScreen.EditFirstName | little-lemon/app/onboarding.tsx:40 | only the first name changes |
| Onboarding.OnboardingScreen.EditEmail | little-lemon/app/onboarding.tsx:43 | only the email changes |
| Onboarding.OnboardingScreen.HandleNext | little-lemon/app/onboarding.tsx:16-20 | the two writes of `Submitted` happen first (see `Onboarding.SubmittedKeys`), then the completion handler stores `isOnboarded`; the gate ends onboarded and shows Profile |

## Left out

- Rendering: JSX, styles, layout and the splash screen. The model keeps only the choice of screen (`Gate.Render`).
- Router navigation (`router.push` and `router.replace`). This is navigation plumbing with no state of its own.
- Real I/O. AsyncStorage, expo-sqlite, `fetch` and `response.json()` are foreign code. The model uses a map, a row sequence and a `FetchOutcome` input.
- A fetched response without a `menu` array. The model assumes it ends as `FetchFailed`. In the source, `menuItems.forEach` runs inside the transaction callback, which the `try` does not await, so the catch may never run and `loading` may stay set.
- The SQL text and the `CREATE TABLE` statement. Row order is the insertion order, since the code has no `ORDER BY`.
- A failing insert transaction (home.tsx:101 has no error callback). Nothing clears `loading` in that case.
- Async interleavings and updates to a component after it unmounts. Each handler is one atomic sequential step.
- React state batching. `LoadUserData` collects the setter values and applies them together (`SetState`).
- Unicode case mapping. `toLowerCase` and `toUpperCase` are an ASCII map.
- The `price` REAL column. It is an abstract type, since no logic reads it.
- The image picker's internals. Only the result shape is modelled.
- The masked phone input's formatting. Only the raw-text length guard is modelled.
- Profile.ProfileScreen.LoadUserData: a stored flag other than "true" or "false" is treated as a `JSON.parse` error. Other JSON texts such as `0`, `null` or `"x"` would parse and set a non-boolean value, and the literals padded with whitespace, such as ` true` or `false` followed by a newline, would parse to a boolean and set the flag; the model instead ends the load at each of them.
- Home's header loading of the avatar and names (home.tsx:45-55). It follows the same pattern as `Profile.LoadInto` for three keys.
- The notification switches and the profile's plain text inputs. These are the setters at profile.tsx:138-184 other than the phone. Each sets one field to its argument.
- The "Discard changes" button. It has no handler.
