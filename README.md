# Client-side state and route gating of a Nuxt + PocketBase application

This project models the part of the application that keeps state and makes
decisions on the client, and proves properties about it:

- the **preferences store** (`stores/preferences.ts`). It holds a nested settings
  document with three sections: `notifications`, `ui` and `content`. It loads the
  document from the PocketBase user record with a shallow merge and saves it back
  after every change.
- the **auth store** (`stores/auth.ts`). It is the local projection of the
  session: `user`, `isLoggedIn` and `isLoading`, plus the derived `isAuthenticated`
  and `isAdmin`.
- the three **route middlewares** (`middleware/auth.ts`, `middleware/admin.ts`,
  `middleware/guest.ts`). Each decides whether to allow a navigation or redirect it.
- the **session synchronisation** in the PocketBase plugin (`plugins/pocketbase.ts`).
  It seeds the auth store at start-up and re-seeds it on every session change. It
  also redirects home from the login and register pages.
- the **`pages:extend` hook** (`nuxt.config.ts`). It appends the `admin` or `auth`
  middleware to routes by path prefix.

## How the model represents the program

JavaScript values are a `Json` datatype plus `Undefined` (module `Js`). The
module defines three operations on them:

- truthiness;
- property reads and strict-mode property writes. Reading a property of
  `undefined` or `null` throws, and so does writing a property of a primitive;
- object spread, `{ ...a, ...b }`. An array or a string spreads into decimal index
  keys.

Each preferences section is therefore a `map<string, Json>`. A stored blob with
unknown keys, or with a non-object section, is merged exactly as the code merges
it.

The stores are classes whose fields are the state the source assigns.
`PreferencesStore` has two more fields:

- `sent`: the updates issued to the `users` collection;
- `themeApplications`: how many times `applyTheme` ran.

Every state-changing method is specified by a pure function of the old state:
`Load`, `WriteNotification`, `WriteCategory`, `WithToggledTheme`, `WriteUi` and
`SaveRequests`. The lemmas are proved about those functions.

Things outside the program become inputs or outputs:

- The auth store's `isAuthenticated`, the PocketBase session record and whether the
  remote update succeeds are inputs. The save takes them as a `SaveContext`.
- `JSON.parse` is a function parameter that yields `None` where it would throw.
- The current path is an input.
- Navigation and the `sessionStorage` write are returned values.

In these places the code does something other than what one might expect, and the
model follows the code:

- `isLoggedIn` is set to the session's validity alone. Only the
  `isAuthenticated` getter also requires a user.
- A preferences blob that fails to parse leaves the state as it was. The state
  does not fall back to the defaults, and the theme is not applied.
- `updateCategoryPreference` does not save when the channel has no categories.
- `resetPreferences` merges the defaults into the state instead of replacing it.
  `ResetPreferences` models the evidently intended reset; the `$patch` merge as
  written is `PatchedDefaults` (see Findings).

## Model

| member | source | states |
|---|---|---|
| `Js.Truthy` | stores/preferences.ts:79-96 | a value is falsy exactly when it is `undefined`, `null`, `false`, `0` or `""`; in particular a nullish value is falsy |
| `Js.Spread` | stores/preferences.ts:87-95 | `{ ...v }` copies an object's own fields; an array's or string's elements under their decimal indices, and no other key; nothing from `undefined`, `null`, booleans or numbers |
| `Js.IndexKeys` | stores/preferences.ts:87-95 | every element of a spread array appears under its own decimal key, and no other key appears |
| `Js.DecimalStringInjective` | stores/preferences.ts:87-95 | different array indices give different spread keys, so no element of a spread array overwrites another |
| `Js.GetProp` | stores/preferences.ts:47-51 | a property read throws exactly on `undefined`/`null`; an object yields its field or `undefined`; other values yield `undefined` |
| `Js.SetProp` | stores/preferences.ts:137 | a strict-mode property write succeeds exactly on objects and arrays; an object then holds the value and keeps its other fields |
| `Preferences.DefaultCategories` | stores/preferences.ts:11-25 | the default categories are `accountUpdates`, `newContent`, `marketing` and `systemAlerts`; only `marketing` is off |
| `Preferences.Defaults` | stores/preferences.ts:5-43 | both channels are enabled and hold the default categories; email alone has a frequency, `daily`; `ui` is exactly theme `light`, font size `medium`, no reduced motion, no compact view; `content` has a null template, tutorials on and no recent searches |
| `Preferences.DefaultsAsDocumented` | stores/preferences.ts:5-43 | email and in-app are enabled, with frequency `daily`; `marketing` is off and the other three categories are on; theme `light`, font size `medium`, `defaultTemplate` null, `recentSearches` empty |
| `Preferences.NotificationSetting` | stores/preferences.ts:47-51 | the notification getters throw exactly when the channel is missing or null; otherwise they read the channel object's field |
| `Preferences.CurrentTheme` | stores/preferences.ts:54 | `currentTheme` is the `ui` section's `theme`, or `undefined` when it has none |
| `Preferences.PreferencesStore.IsEmailEnabled` | stores/preferences.ts:47 | throws exactly when the `email` channel is missing or null; otherwise reads its `enabled` field |
| `Preferences.PreferencesStore.EmailFrequency` | stores/preferences.ts:48 | throws exactly when the `email` channel is missing or null; otherwise reads its `frequency` field |
| `Preferences.PreferencesStore.IsInAppEnabled` | stores/preferences.ts:51 | throws exactly when the `inApp` channel is missing or null; otherwise reads its `enabled` field |
| `Preferences.PreferencesStore.ProfilePreferences` | stores/preferences.ts:57-61 | the three sections of the store, as they are |
| `Preferences.PreferencesStore.ApplyTheme` | stores/preferences.ts:177-185 | each call is recorded once and changes nothing else |
| `Preferences.Field` | stores/preferences.ts:86-94 | `preferences.name` of a non-null blob: an object's field or `undefined`; `undefined` for any other value |
| `Preferences.MergeSection` | stores/preferences.ts:86-96 | a truthy stored section's entries win; current keys it lacks are kept; a falsy section leaves the current one untouched |
| `Preferences.MergeBlob` | stores/preferences.ts:86-96 | each of the three sections is merged one level deep with the stored section of the same name; sections absent from the blob stay as they are |
| `Preferences.MergeReplacesWholeChannel` | stores/preferences.ts:87 | a stored `email` object replaces the whole current `email` object; fields it lacks read as `undefined` afterwards |
| `Preferences.ReadStored` | stores/preferences.ts:79-84 | a falsy field holds nothing; a string is parsed, and a parse error is reported; any other value is used as it is |
| `Preferences.Load` | stores/preferences.ts:66-104 | nothing happens unless authenticated with a session record; a parse error, or a `null` blob, is swallowed and leaves the state alone; otherwise the blob is merged, or the state is kept when there is no blob |
| `Preferences.ThemeOnlyBlob` | stores/preferences.ts:79-96 | loading `{ui:{theme:"dark"}}` onto the defaults makes the theme dark and keeps every other default |
| `Preferences.StringOrObjectLoadAlike` | stores/preferences.ts:81-83 | a string that parses to an object, and that object stored directly, load to the same state |
| `Preferences.PreferencesStore.LoadPreferences` | stores/preferences.ts:66-104 | the new state is `Load`'s; the theme is applied only when the load ran to the end; nothing is sent |
| `Preferences.SaveRequests` | stores/preferences.ts:112-126 | a save sends no update when unauthenticated or without a session record; otherwise exactly one, for the record's `id`, carrying all three sections |
| `Preferences.PreferencesStore.SavePreferences` | stores/preferences.ts:107-133 | appends exactly `SaveRequests` to the sent updates; returns true only when an update was sent and succeeded |
| `Preferences.WriteNotification` | stores/preferences.ts:137 | writes one field of one channel; every other channel, field and section is unchanged; throws when the channel is missing, null or a primitive |
| `Preferences.PreferencesStore.SetNotificationField` | stores/preferences.ts:136-151 | the state becomes `WriteNotification`'s and one save follows; a throw leaves the state and the sent updates unchanged and saves nothing |
| `Preferences.PreferencesStore.ToggleEmailNotifications` | stores/preferences.ts:136-139 | `email.enabled` becomes the argument (it is assigned, not negated), then one save; a throw leaves everything unchanged |
| `Preferences.PreferencesStore.SetEmailFrequency` | stores/preferences.ts:142-145 | `email.frequency` becomes the argument, then one save; a throw leaves everything unchanged |
| `Preferences.PreferencesStore.ToggleInAppNotifications` | stores/preferences.ts:148-151 | `inApp.enabled` becomes the argument, then one save; a throw leaves everything unchanged |
| `Preferences.CategoriesOf` | stores/preferences.ts:155 | `notifications[channel].categories` is defined exactly when the channel is an object holding `categories`, and is then that value |
| `Preferences.WriteCategory` | stores/preferences.ts:154-160 | writes only `notifications[channel].categories[category]`, possibly as a new key, and only when the channel and its categories are truthy; otherwise nothing changes |
| `Preferences.PreferencesStore.UpdateCategoryPreference` | stores/preferences.ts:154-160 | after a write it saves and returns the save's result; with no categories it returns false and sends nothing |
| `Preferences.WriteUi` | stores/preferences.ts:164 | sets one `ui` field; the other sections and other `ui` fields are unchanged |
| `Preferences.PreferencesStore.SetTheme` | stores/preferences.ts:163-167 | the current theme becomes the argument; the theme is applied and one save follows |
| `Preferences.ToggledTheme` | stores/preferences.ts:171 | `light` becomes `dark`, and any other value becomes `light` |
| `Preferences.WithToggledTheme` | stores/preferences.ts:170-174 | the theme becomes the toggled value; every other `ui` key and both other sections are unchanged |
| `Preferences.ToggleThemeTwice` | stores/preferences.ts:171 | for `light` or `dark`, one toggle changes the state and two toggles restore it |
| `Preferences.ToggleThemeFromOther` | stores/preferences.ts:171 | any other theme does not come back: two toggles give `dark` |
| `Preferences.PreferencesStore.ToggleTheme` | stores/preferences.ts:170-174 | the state becomes `WithToggledTheme` of the old state; the theme is applied and one save follows |
| `Preferences.PatchValue` | stores/preferences.ts:224 | object `$patch` merges plain objects recursively and replaces everything else; keys only the state holds survive |
| `Preferences.PatchedDefaults` | stores/preferences.ts:188-224 | the as-written reset patches each section with its defaults |
| `Preferences.PatchedDefaultsRestoresLeaves` | stores/preferences.ts:211-221 | the as-written reset does restore every default `ui` and `content` setting |
| `Preferences.PatchKeepsNestedExtraKey` | stores/preferences.ts:224 | a key that only the state holds, two objects deep, survives `$patch` |
| `Preferences.PatchedDefaultsKeepsAddedCategory` | stores/preferences.ts:188-224 | after adding a category, the as-written reset does not give back the defaults |
| `Preferences.PreferencesStore.ResetPreferences` | stores/preferences.ts:188-227 | afterwards the state equals the defaults; the theme is applied and one save of the defaults follows |
| `Preferences.PreferencesStore.constructor` | stores/preferences.ts:5-43 | the initial state is the defaults; nothing has been sent and no theme applied |
| `Auth.AuthStore.constructor` | stores/auth.ts:5-9 | the initial state has no user, is not logged in and is not loading, so it is not authenticated |
| `Auth.AuthStore.IsAuthenticated` | stores/auth.ts:12 | holds exactly when the store is logged in and holds a user; it implies a current user |
| `Auth.AuthStore.CurrentUser` | stores/auth.ts:13 | `currentUser` is the stored `user` |
| `Auth.AuthStore.IsAdmin` | stores/auth.ts:15 | holds exactly when `UserIsAdmin` holds of the current user; it implies a current user, but not `isLoggedIn` |
| `Auth.UserIsAdmin` | stores/auth.ts:15 | a user is an admin only when present and holding a boolean `isAdmin` field |
| `Auth.AuthStore.SetUser` | stores/auth.ts:19-21 | changes only `user` |
| `Auth.AuthStore.SetLoggedIn` | stores/auth.ts:23-25 | changes only `isLoggedIn` |
| `Auth.AuthStore.SetLoading` | stores/auth.ts:27-29 | changes only `isLoading` |
| `Auth.AuthStore.ClearUser` | stores/auth.ts:31-34 | clears `user` and `isLoggedIn` and keeps `isLoading`; afterwards the store is neither authenticated nor admin |
| `Auth.AuthStore.Logout` | stores/auth.ts:36-43 | the PocketBase session is cleared, then the local projection, and navigation goes to `/` |
| `Auth.AdminFlagIsStrict` | stores/auth.ts:15 | `isAdmin` holds exactly when there is a user whose `isAdmin` is `true`; `1` or `"true"` is not enough |
| `PocketBase.SessionStore.Clear` | stores/auth.ts:38 | after `authStore.clear()` the session is invalid and holds no record |
| `Guards.AuthGuard` | middleware/auth.ts:4-20 | allows exactly on a server pass or when authenticated; otherwise stores the destination and redirects to `/auth/login` |
| `Guards.AuthGuardIgnoresDestination` | middleware/auth.ts:13-19 | the destination never changes the decision or the redirect target; it is only recorded |
| `Guards.AdminGuard` | middleware/admin.ts:4-30 | an unauthenticated user gets exactly the auth guard's redirect; an authenticated one whose session record's `isAdmin` is falsy goes to `/auth/unauthorized` with `redirect` set to the destination and nothing stored; a truthy flag allows; a missing record throws |
| `Guards.AdminGuardAndGetterDisagree` | middleware/admin.ts:22 | the guard reads the session record by truthiness, not the store's `isAdmin`: a record with `isAdmin: 1` passes the guard but is not an admin for the store |
| `Guards.GuestGuard` | middleware/guest.ts:4-17 | allows exactly on a server pass or when unauthenticated; otherwise redirects to `/` without storing anything |
| `Guards.GuestAndAuthComplementary` | middleware/guest.ts:13-16 | on a client pass exactly one of the guest guard and the auth guard redirects |
| `Guards.OnlyLoginRedirectStores` | middleware/auth.ts:15 | the only storage write is the destination, on a redirect to the login page |
| `SessionSync.LoginPageRedirect` | plugins/pocketbase.ts:50-55 | redirects home exactly when the session is valid and the page is `/auth/login` or `/auth/register` |
| `SessionSync.Startup` | plugins/pocketbase.ts:29-41 | a valid session sets the store's user to the record and marks it logged in; an invalid one leaves the store alone; the same redirect rule applies |
| `SessionSync.OnChange` | plugins/pocketbase.ts:44-56 | the user becomes the model or null, and `isLoggedIn` the session's validity; then `isAuthenticated` holds exactly when the session is valid and has a model |
| `PagesHook.StartsWith` | nuxt.config.ts:36 | `path.startsWith(prefix)`: the path is the prefix followed by the rest |
| `PagesHook.Middleware` | nuxt.config.ts:37-38 | a missing `meta` or `middleware` reads as the empty list; otherwise the list as it is |
| `PagesHook.Attach` | nuxt.config.ts:36-41 | a route under the prefix gets the name once, at the end of its middleware list, unless the name is already there; other routes are untouched |
| `PagesHook.AttachAll` | nuxt.config.ts:34-43 | a pass keeps the number of routes |
| `PagesHook.AttachAllAt` | nuxt.config.ts:34-43 | a pass changes each route on its own and keeps its position |
| `PagesHook.AttachAllIdempotent` | nuxt.config.ts:39-41 | a pass run twice gives what it gives once |
| `PagesHook.Hook` | nuxt.config.ts:33-54 | the hook keeps the number of routes (its per-route effect is `HookAt` and `HookGuarantees`) |
| `PagesHook.HookAt` | nuxt.config.ts:33-54 | each route goes through the `/dashboard` step and then the `/account` step |
| `PagesHook.HookGuarantees` | nuxt.config.ts:33-54 | count, order and paths are kept; `/dashboard` routes have `admin` and `/account` routes have `auth`; other routes are unchanged; existing entries keep their order and only missing names are appended; no duplicate is introduced |
| `PagesHook.HookIdempotent` | nuxt.config.ts:33-54 | running the hook twice gives the same routes as running it once |
| `PagesHook.AttachInPlace` | nuxt.config.ts:34-43 | one `forEach` pass over the route array, in place, gives `AttachAll` of the old routes |
| `PagesHook.ExtendPages` | nuxt.config.ts:33-54 | the route array becomes `Hook` of the old routes |

## Findings

| source | as written | input that shows it | evidently intended | confidence | as-written member | corrected member |
|---|---|---|---|---|---|---|
| stores/preferences.ts:224 | `this.$patch(defaultState)` merges the defaults into the state recursively, so keys outside the defaults survive a reset (and are saved) | `updateCategoryPreference('email', 'weeklyDigest', true)`, then `resetPreferences()`: `weeklyDigest` is still there | after "Reset preferences to defaults" the state equals the defaults | medium: rests on Pinia's object `$patch` being a recursive merge of plain objects; not executed | `Preferences.PatchedDefaultsKeepsAddedCategory` | `Preferences.PreferencesStore.ResetPreferences` |

## Left out

- Database migrations (`backend/pb_migrations/*.js`) are left out. They are declarative calls into PocketBase's migration API, and that API's semantics are not part of this model.
- `plugins/preferences.ts` is left out. It only calls `loadPreferences` when the session is valid and has no logic of its own.
- PocketBase client construction, `autoCancellation`, the OAuth method table, `nuxtApp.provide`, and the real `users` update call over the network are left out. The update is an entry in `sent`, and whether it succeeds is an input.
- `JSON.parse` and `JSON.stringify` are not modelled. Parsing is a parameter, and the saved payload is the three sections themselves. Key order in JavaScript objects, which `JSON.stringify` follows, is not represented by maps.
- The `console.error` logging in the catch blocks of `loadPreferences` and `savePreferences` (stores/preferences.ts:102 and 130) is left out. It is output only; the model keeps what the catch does to the state and the result.
- `applyTheme`'s change to the document's class list is not modelled; only that it ran is recorded.
- `navigateTo`, `sessionStorage` and `window.location` are not real effects here. They are returned redirects, a returned stored path and an input path.
- The order in which the two session listeners run, and the race between loading preferences and redirecting, are left out. They are asynchronous scheduling.
- The rest of `nuxt.config.ts` is left out: `routeRules`, modules, fonts, `runtimeConfig` and the `prerender:routes` hook. These are configuration.
- Aliasing of nested objects is not modelled. When `preferences` is stored on the record as an object rather than a string, the merged sections share objects with that record, and the setters' in-place writes change both. The model holds values, so it captures only the store's side.
- Js.GetProp: only own fields of objects are read. Reading `length` or an index of a string or array gives `undefined` in the model, and so does an inherited property such as `constructor` or `__proto__`. `updateCategoryPreference` reads a caller-chosen name (`this.notifications[type]`); for an inherited name the code finds no `categories` there and returns false, which is what the model returns too.
- Js.SetProp: writing the key `__proto__` to an ordinary object that has no own `__proto__` goes to the inherited accessor. A boolean is ignored and no key is added; an object or `null` would change the prototype. The model adds an own `__proto__` key instead.
- Preferences.WriteCategory: for the category `__proto__`, `updateCategoryPreference` adds no key in JavaScript and then saves the unchanged categories. The model promises a new `__proto__` key.
- Js.SetProp: writing a key to an array is treated as a named property that JSON drops. A category named like an index (`"0"`) written into an array of categories would, in JavaScript, replace an element.
- Js.Spread: string characters are Unicode scalar values, whereas JavaScript spreads UTF-16 code units. The two differ only for characters outside the Basic Multilingual Plane.
- Js.Json: numbers are reals, so `NaN` and `-0` cannot be represented; JSON cannot carry them either.
- Auth.AuthStore.Logout: PocketBase's `clear()` also notifies the session change listener. That run of the listener is not part of `Logout`; it would set the same user and `isLoggedIn` that `clearUser` sets.
- The setters take typed arguments (a boolean, a string) where JavaScript accepts any value.
- `Auth.AuthStore.SetUser` takes a record or null, the only values the plugin passes. Other values, including `undefined` (which `isAuthenticated` would count as a user), are not modelled.
- `PagesHook.Route` keeps only `meta.middleware`, as a list of names. A middleware given as a single string or a function, and nested `children` routes, are not modelled; the hook does not visit `children`.
