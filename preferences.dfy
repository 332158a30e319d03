/**
 * The preferences store (stores/preferences.ts): a nested settings
 * document with three top-level sections, loaded from and saved to the
 * PocketBase user record. Sections are JavaScript objects, so each is a
 * map from key to JSON value; the store's own fields are the three
 * sections, the updates it has sent to the `users` collection, and how
 * often it has applied the theme to the page.
 */
module Preferences {
  import opened Js

  type Section = map<string, Json>

  /** The store's state: `notifications`, `ui` and `content`. */
  datatype Prefs = Prefs(notifications: Section, ui: Section, content: Section)

  /** The default category switches, the same for email and in-app notifications. */
  function DefaultCategories(): (c: Json)
    ensures c.JObj? && c.fields.Keys == {"accountUpdates", "newContent", "marketing", "systemAlerts"}
    ensures forall k :: k in c.fields ==> c.fields[k] == JBool(k != "marketing")
  {
    JObj(map["accountUpdates" := JBool(true), "newContent" := JBool(true),
             "marketing" := JBool(false), "systemAlerts" := JBool(true)])
  }

  /** The hard-coded initial state. */
  function Defaults(): (d: Prefs)
    ensures d.notifications.Keys == {"email", "inApp"}
    ensures forall channel :: channel in d.notifications ==>
              d.notifications[channel].JObj? &&
              "enabled" in d.notifications[channel].fields && "categories" in d.notifications[channel].fields &&
              d.notifications[channel].fields["enabled"] == JBool(true) &&
              d.notifications[channel].fields["categories"] == DefaultCategories()
    ensures d.notifications["email"].fields.Keys == {"enabled", "frequency", "categories"}
    ensures d.notifications["inApp"].fields.Keys == {"enabled", "categories"}
    ensures d.notifications["email"].fields["frequency"] == JStr("daily")
    ensures d.ui == map["theme" := JStr("light"), "fontSize" := JStr("medium"),
                        "reducedMotion" := JBool(false), "compactView" := JBool(false)]
    ensures d.content.Keys == {"defaultTemplate", "showTutorials", "recentSearches"}
    ensures d.content["defaultTemplate"] == JNull && d.content["showTutorials"] == JBool(true) &&
            d.content["recentSearches"] == JArr([])
  {
    Prefs(
      map["email" := JObj(map["enabled" := JBool(true), "frequency" := JStr("daily"),
                              "categories" := DefaultCategories()]),
          "inApp" := JObj(map["enabled" := JBool(true), "categories" := DefaultCategories()])],
      map["theme" := JStr("light"), "fontSize" := JStr("medium"),
          "reducedMotion" := JBool(false), "compactView" := JBool(false)],
      map["defaultTemplate" := JNull, "showTutorials" := JBool(true), "recentSearches" := JArr([])])
  }

  // ---------------------------------------------------------------------
  // Getters

  /** `state.notifications[channel][field]`: throws when the channel is missing or null. */
  function NotificationSetting(p: Prefs, channel: string, field: string): (r: Read)
    ensures r.ReadThrew? <==> channel !in p.notifications || p.notifications[channel] == JNull
    ensures channel in p.notifications && p.notifications[channel].JObj? ==>
              r == Got(Lookup(p.notifications[channel].fields, field))
  {
    GetProp(Lookup(p.notifications, channel), field)
  }

  /** `currentTheme`. */
  function CurrentTheme(p: Prefs): (t: Value)
    ensures t.Defined? <==> "theme" in p.ui
    ensures t.Defined? ==> t.json == p.ui["theme"]
  {
    Lookup(p.ui, "theme")
  }

  /** The initial state holds the documented defaults. */
  lemma DefaultsAsDocumented()
    ensures NotificationSetting(Defaults(), "email", "enabled") == Got(Defined(JBool(true)))
    ensures NotificationSetting(Defaults(), "email", "frequency") == Got(Defined(JStr("daily")))
    ensures NotificationSetting(Defaults(), "inApp", "enabled") == Got(Defined(JBool(true)))
    ensures forall channel :: channel in {"email", "inApp"} ==>
              NotificationSetting(Defaults(), channel, "categories") == Got(Defined(DefaultCategories()))
    ensures DefaultCategories().fields.Keys == {"accountUpdates", "newContent", "marketing", "systemAlerts"}
    ensures forall c :: c in DefaultCategories().fields ==> DefaultCategories().fields[c] == JBool(c != "marketing")
    ensures CurrentTheme(Defaults()) == Defined(JStr("light"))
    ensures Lookup(Defaults().ui, "fontSize") == Defined(JStr("medium"))
    ensures Lookup(Defaults().content, "defaultTemplate") == Defined(JNull)
    ensures Lookup(Defaults().content, "recentSearches") == Defined(JArr([]))
  {
  }

  // ---------------------------------------------------------------------
  // Loading: the shallow merge

  /**
   * `this.section = { ...this.section, ...incoming }` when `incoming` is
   * truthy: the incoming entries win, current entries the incoming value
   * lacks are kept. A falsy value leaves the section alone.
   */
  function MergeSection(current: Section, incoming: Value): (r: Section)
    ensures !Truthy(incoming) ==> r == current
    ensures Truthy(incoming) ==> r.Keys == current.Keys + Spread(incoming).Keys
    ensures Truthy(incoming) ==> forall k :: k in Spread(incoming) ==> r[k] == Spread(incoming)[k]
    ensures forall k :: k in current && !(Truthy(incoming) && k in Spread(incoming)) ==> k in r && r[k] == current[k]
  {
    if Truthy(incoming) then current + Spread(incoming) else current
  }

  /** `blob.name` for a blob that is not null (any non-object yields undefined). */
  function Field(blob: Json, name: string): (v: Value)
    requires blob != JNull
    ensures blob.JObj? ==> v == Lookup(blob.fields, name)
    ensures !blob.JObj? ==> v == Undefined
  {
    match GetProp(Defined(blob), name)
    case ReadThrew => Undefined
    case Got(v) => v
  }

  /** Each of the three sections merged one level deep with the blob's section of the same name. */
  function MergeBlob(p: Prefs, blob: Json): (r: Prefs)
    requires blob != JNull
    ensures r.notifications == MergeSection(p.notifications, Field(blob, "notifications"))
    ensures r.ui == MergeSection(p.ui, Field(blob, "ui"))
    ensures r.content == MergeSection(p.content, Field(blob, "content"))
  {
    Prefs(MergeSection(p.notifications, Field(blob, "notifications")),
          MergeSection(p.ui, Field(blob, "ui")),
          MergeSection(p.content, Field(blob, "content")))
  }

  /** What `loadPreferences` finds in the user record's `preferences` field. */
  datatype Stored = NoPreferences | Unparsable | Blob(json: Json)

  /**
   * A falsy field holds nothing; a string is handed to `JSON.parse`
   * (`parse`, which yields None where it throws); any other value is used
   * as it is.
   */
  function ReadStored(record: Record, parse: string -> Option<Json>): (s: Stored)
    ensures s.NoPreferences? <==> !Truthy(Lookup(record, "preferences"))
    ensures s.Unparsable? <==> Truthy(Lookup(record, "preferences")) && record["preferences"].JStr? &&
                               parse(record["preferences"].s).None?
    ensures s.Blob? && record["preferences"].JStr? ==> parse(record["preferences"].s) == Some(s.json)
    ensures s.Blob? && !record["preferences"].JStr? ==> s.json == record["preferences"]
  {
    var field := Lookup(record, "preferences");
    if !Truthy(field) then NoPreferences
    else if field.json.JStr? then
      match parse(field.json.s)
      case None => Unparsable
      case Some(j) => Blob(j)
    else Blob(field.json)
  }

  /**
   * The outcome of `loadPreferences`: it returned before doing anything,
   * an exception was caught (the state is left as it was and the theme is
   * not applied), or it ran to the end with this state and applied the theme.
   */
  datatype LoadOutcome = NotLoaded | Swallowed | Loaded(prefs: Prefs)

  /**
   * `loadPreferences` given the auth store's `isAuthenticated`, the
   * session record and `JSON.parse`. Reading a section of a null blob
   * throws and is caught like a parse error.
   */
  function Load(p: Prefs, authenticated: bool, model: Option<Record>, parse: string -> Option<Json>): (r: LoadOutcome)
    ensures r.NotLoaded? <==> !authenticated || model.None?
    ensures r.Swallowed? <==> authenticated && model.Some? &&
                              (ReadStored(model.value, parse).Unparsable? || ReadStored(model.value, parse) == Blob(JNull))
    ensures authenticated && model.Some? && ReadStored(model.value, parse).NoPreferences? ==> r == Loaded(p)
    ensures authenticated && model.Some? && ReadStored(model.value, parse).Blob? && ReadStored(model.value, parse).json != JNull ==>
              r == Loaded(MergeBlob(p, ReadStored(model.value, parse).json))
  {
    if !authenticated || model.None? then NotLoaded
    else
      match ReadStored(model.value, parse)
      case NoPreferences => Loaded(p)
      case Unparsable => Swallowed
      case Blob(b) => if b == JNull then Swallowed else Loaded(MergeBlob(p, b))
  }

  /**
   * The merge is one level deep: a stored `email` object replaces the
   * current `email` object as a whole, so settings it lacks are gone
   * rather than kept from the current state.
   */
  lemma MergeReplacesWholeChannel(p: Prefs, blob: Json, channel: string, email: map<string, Json>)
    requires blob.JObj? && "notifications" in blob.fields && blob.fields["notifications"].JObj?
    requires channel in blob.fields["notifications"].fields
    requires blob.fields["notifications"].fields[channel] == JObj(email)
    ensures MergeBlob(p, blob).notifications[channel] == JObj(email)
    ensures forall f :: f !in email ==> NotificationSetting(MergeBlob(p, blob), channel, f) == Got(Undefined)
  {
  }

  /**
   * A blob holding only `{ ui: { theme: "dark" } }`, stored as a string:
   * the theme becomes dark, every other setting keeps its default.
   */
  lemma ThemeOnlyBlob(s: string, parse: string -> Option<Json>, record: Record)
    requires parse(s) == Some(JObj(map["ui" := JObj(map["theme" := JStr("dark")])]))
    requires "preferences" in record && record["preferences"] == JStr(s) && s != ""
    ensures Load(Defaults(), true, Some(record), parse) ==
              Loaded(Defaults().(ui := Defaults().ui["theme" := JStr("dark")]))
  {
    var blob := JObj(map["ui" := JObj(map["theme" := JStr("dark")])]);
    assert ReadStored(record, parse) == Blob(blob);
    assert Field(blob, "notifications") == Undefined;
    assert Field(blob, "content") == Undefined;
    assert MergeSection(Defaults().ui, Field(blob, "ui")) == Defaults().ui["theme" := JStr("dark")];
  }

  /** A string that parses to an object and that object stored directly load alike. */
  lemma StringOrObjectLoadAlike(p: Prefs, s: string, blob: Json, parse: string -> Option<Json>, r1: Record, r2: Record)
    requires blob.JObj? && parse(s) == Some(blob) && s != ""
    requires "preferences" in r1 && r1["preferences"] == JStr(s)
    requires "preferences" in r2 && r2["preferences"] == blob
    ensures Load(p, true, Some(r1), parse) == Load(p, true, Some(r2), parse) == Loaded(MergeBlob(p, blob))
  {
    assert ReadStored(r1, parse) == Blob(blob);
    assert ReadStored(r2, parse) == Blob(blob);
  }

  // ---------------------------------------------------------------------
  // Single-field setters

  /**
   * `this.notifications[channel][field] = x`: the channel's object gains
   * the field; an array channel keeps its JSON value; a missing, null or
   * primitive channel throws (None).
   */
  function WriteNotification(p: Prefs, channel: string, field: string, x: Json): (r: Option<Prefs>)
    ensures r.Some? <==> channel in p.notifications && (p.notifications[channel].JObj? || p.notifications[channel].JArr?)
    ensures r.Some? ==> r.value.ui == p.ui && r.value.content == p.content
    ensures r.Some? ==> r.value.notifications.Keys == p.notifications.Keys
    ensures r.Some? ==> forall c :: c in p.notifications && c != channel ==> r.value.notifications[c] == p.notifications[c]
    ensures r.Some? && p.notifications[channel].JObj? ==>
              NotificationSetting(r.value, channel, field) == Got(Defined(x)) &&
              forall f :: f != field ==> NotificationSetting(r.value, channel, f) == NotificationSetting(p, channel, f)
    ensures r.Some? && p.notifications[channel].JArr? ==> r.value == p
  {
    match SetProp(Lookup(p.notifications, channel), field, x)
    case WriteThrew => None
    case Wrote(t) => Some(p.(notifications := p.notifications[channel := t]))
  }

  /** `this.ui[field] = x`: the `ui` section is always an object, so this cannot throw. */
  function WriteUi(p: Prefs, field: string, x: Json): (r: Prefs)
    ensures r.notifications == p.notifications && r.content == p.content
    ensures r.ui.Keys == p.ui.Keys + {field} && r.ui[field] == x
    ensures forall f :: f in p.ui && f != field ==> r.ui[f] == p.ui[f]
  {
    p.(ui := p.ui[field := x])
  }

  /** The theme `toggleTheme` chooses: `'dark'` after `'light'`, `'light'` after anything else. */
  function ToggledTheme(current: Value): (t: string)
    ensures t == "dark" <==> current == Defined(JStr("light"))
    ensures t == "dark" || t == "light"
  {
    if current == Defined(JStr("light")) then "dark" else "light"
  }

  /** `toggleTheme`'s change to the state. */
  function WithToggledTheme(p: Prefs): (r: Prefs)
    ensures CurrentTheme(r) == Defined(JStr(ToggledTheme(CurrentTheme(p))))
    ensures r.notifications == p.notifications && r.content == p.content
    ensures r.ui.Keys == p.ui.Keys + {"theme"}
    ensures forall f :: f in p.ui && f != "theme" ==> r.ui[f] == p.ui[f]
  {
    WriteUi(p, "theme", JStr(ToggledTheme(CurrentTheme(p))))
  }

  /** Toggling a light or dark theme twice restores the original state. */
  lemma ToggleThemeTwice(p: Prefs)
    requires CurrentTheme(p) in {Defined(JStr("light")), Defined(JStr("dark"))}
    ensures WithToggledTheme(p) != p
    ensures WithToggledTheme(WithToggledTheme(p)) == p
  {
    assert "theme" in p.ui;
    var once := WithToggledTheme(p);
    assert once.ui["theme"] != p.ui["theme"];
    assert WithToggledTheme(once).ui == p.ui;
  }

  /** Any other theme is not restored: the first toggle already yields `'light'`. */
  lemma ToggleThemeFromOther(p: Prefs)
    requires CurrentTheme(p) !in {Defined(JStr("light")), Defined(JStr("dark"))}
    ensures CurrentTheme(WithToggledTheme(p)) == Defined(JStr("light"))
    ensures CurrentTheme(WithToggledTheme(WithToggledTheme(p))) == Defined(JStr("dark"))
  {
  }

  /** The outcome of `updateCategoryPreference`'s change to the state. */
  datatype CategoryStep = NoCategories | CategoryThrew | CategoryWritten(prefs: Prefs)

  /** `this.notifications[channel].categories`, when the channel is present. */
  function CategoriesOf(p: Prefs, channel: string): (v: Value)
    ensures v.Defined? <==> channel in p.notifications && p.notifications[channel].JObj? &&
                            "categories" in p.notifications[channel].fields
    ensures v.Defined? ==> v.json == p.notifications[channel].fields["categories"]
  {
    var section := Lookup(p.notifications, channel);
    if section.Defined? && section.json.JObj? then Lookup(section.json.fields, "categories") else Undefined
  }

  /**
   * `notifications[channel].categories[category] = enabled`, guarded by
   * both being truthy: an object of categories gains or replaces the
   * switch; an array keeps its JSON value; a truthy primitive throws.
   */
  function WriteCategory(p: Prefs, channel: string, category: string, enabled: bool): (r: CategoryStep)
    ensures r.NoCategories? <==> !Truthy(Lookup(p.notifications, channel)) || !Truthy(CategoriesOf(p, channel))
    ensures r.CategoryThrew? <==> Truthy(CategoriesOf(p, channel)) && !CategoriesOf(p, channel).json.JObj? &&
                                   !CategoriesOf(p, channel).json.JArr?
    ensures r.CategoryWritten? ==>
              r.prefs.ui == p.ui && r.prefs.content == p.content &&
              r.prefs.notifications.Keys == p.notifications.Keys &&
              (forall c :: c in p.notifications && c != channel ==> r.prefs.notifications[c] == p.notifications[c]) &&
              p.notifications[channel].JObj? && r.prefs.notifications[channel].JObj? &&
              "categories" in r.prefs.notifications[channel].fields &&
              r.prefs.notifications[channel].fields ==
                p.notifications[channel].fields["categories" := r.prefs.notifications[channel].fields["categories"]]
    ensures r.CategoryWritten? && CategoriesOf(p, channel).json.JObj? ==>
              CategoriesOf(r.prefs, channel) ==
                Defined(JObj(CategoriesOf(p, channel).json.fields[category := JBool(enabled)]))
    ensures r.CategoryWritten? && CategoriesOf(p, channel).json.JArr? ==> r.prefs == p
  {
    var section := Lookup(p.notifications, channel);
    if !Truthy(section) then NoCategories
    else
      match GetProp(section, "categories")
      case ReadThrew => NoCategories
      case Got(categories) =>
        if !Truthy(categories) then NoCategories
        else
          match SetProp(categories, category, JBool(enabled))
          case WriteThrew => CategoryThrew
          case Wrote(updated) =>
            var fields := section.json.fields["categories" := updated];
            assert categories.json.JArr? ==> p.notifications[channel := JObj(fields)] == p.notifications by {
              if categories.json.JArr? {
                assert section.json.JObj? && "categories" in section.json.fields;
                assert updated == section.json.fields["categories"];
                assert fields == section.json.fields;
                assert JObj(fields) == p.notifications[channel];
              }
            }
            CategoryWritten(p.(notifications := p.notifications[channel := JObj(fields)]))
  }

  // ---------------------------------------------------------------------
  // Saving

  /** What the save needs from outside: `isAuthenticated`, the session record, and whether the update call succeeds. */
  datatype SaveContext = SaveContext(authenticated: bool, model: Option<Record>, updateSucceeds: bool)

  /** One `users` update: the record id read from the session, and the serialized sections. */
  datatype Update = Update(userId: Value, preferences: Prefs)

  /** The updates one `savePreferences` call sends: one with the whole state, or none when unauthenticated. */
  function SaveRequests(p: Prefs, ctx: SaveContext): (sent: seq<Update>)
    ensures |sent| <= 1
    ensures |sent| == 1 <==> ctx.authenticated && ctx.model.Some?
    ensures |sent| == 1 ==> sent[0].preferences == p && sent[0].userId == Lookup(ctx.model.value, "id")
  {
    if !ctx.authenticated || ctx.model.None? then [] else [Update(Lookup(ctx.model.value, "id"), p)]
  }

  /** What `savePreferences` resolves to: true only when an update was sent and succeeded. */
  predicate SaveSucceeds(ctx: SaveContext)
  {
    ctx.authenticated && ctx.model.Some? && ctx.updateSucceeds
  }

  /** What an action returns, or that it threw. */
  datatype Outcome = Threw | Returned(result: bool)

  // ---------------------------------------------------------------------
  // Resetting, as written: Pinia's object `$patch`

  /**
   * Pinia's `$patch(object)`: where the target and the patch both hold a
   * plain object the two are merged recursively; any other patch value
   * (arrays included) replaces the target's. Keys only the target has
   * survive.
   */
  function PatchValue(target: Json, patch: Json): (r: Json)
    decreases patch
    ensures !(target.JObj? && patch.JObj?) ==> r == patch
    ensures target.JObj? && patch.JObj? ==>
              r.JObj? && r.fields.Keys == target.fields.Keys + patch.fields.Keys &&
              (forall k :: k in target.fields && k !in patch.fields ==> r.fields[k] == target.fields[k]) &&
              (forall k :: k in patch.fields && k !in target.fields ==> r.fields[k] == patch.fields[k]) &&
              (forall k :: k in patch.fields && k in target.fields ==>
                 r.fields[k] == PatchValue(target.fields[k], patch.fields[k]))
  {
    if target.JObj? && patch.JObj? then
      JObj(map k | k in target.fields.Keys + patch.fields.Keys ::
             if k in patch.fields then
               (if k in target.fields then PatchValue(target.fields[k], patch.fields[k]) else patch.fields[k])
             else target.fields[k])
    else patch
  }

  /** `resetPreferences` as written: `$patch(defaultState)`, each section merged recursively. */
  function PatchedDefaults(p: Prefs): (r: Prefs)
    ensures r.notifications == PatchValue(JObj(p.notifications), JObj(Defaults().notifications)).fields
    ensures r.ui == PatchValue(JObj(p.ui), JObj(Defaults().ui)).fields
    ensures r.content == PatchValue(JObj(p.content), JObj(Defaults().content)).fields
  {
    Prefs(PatchValue(JObj(p.notifications), JObj(Defaults().notifications)).fields,
          PatchValue(JObj(p.ui), JObj(Defaults().ui)).fields,
          PatchValue(JObj(p.content), JObj(Defaults().content)).fields)
  }

  /**
   * The as-written reset does restore every default setting of `ui` and
   * `content` (their defaults are not objects, so they replace).
   */
  lemma PatchedDefaultsRestoresLeaves(p: Prefs)
    ensures forall k :: k in Defaults().ui ==> PatchedDefaults(p).ui[k] == Defaults().ui[k]
    ensures forall k :: k in Defaults().content ==> PatchedDefaults(p).content[k] == Defaults().content[k]
  {
    var d := Defaults();
    assert forall k :: k in d.ui ==> !d.ui[k].JObj?;
    assert forall k :: k in d.content ==> !d.content[k].JObj?;
  }

  /** A key that only the target holds two objects down survives the patch. */
  lemma PatchKeepsNestedExtraKey(t: Json, p: Json, a: string, b: string, extra: string)
    requires t.JObj? && p.JObj? && a in t.fields && a in p.fields
    requires t.fields[a].JObj? && p.fields[a].JObj?
    requires b in t.fields[a].fields && b in p.fields[a].fields
    requires t.fields[a].fields[b].JObj? && p.fields[a].fields[b].JObj?
    requires extra in t.fields[a].fields[b].fields && extra !in p.fields[a].fields[b].fields
    ensures PatchValue(t, p).fields[a].JObj? && b in PatchValue(t, p).fields[a].fields
    ensures PatchValue(t, p).fields[a].fields[b].JObj?
    ensures extra in PatchValue(t, p).fields[a].fields[b].fields
  {
    var inner := PatchValue(t.fields[a], p.fields[a]);
    assert PatchValue(t, p).fields[a] == inner;
    assert inner.fields[b] == PatchValue(t.fields[a].fields[b], p.fields[a].fields[b]);
  }

  /**
   * But it does not restore the defaults: a category the user added (here
   * `weeklyDigest`) survives the reset.
   */
  lemma PatchedDefaultsKeepsAddedCategory()
    ensures var added := WriteCategory(Defaults(), "email", "weeklyDigest", true);
            added.CategoryWritten? && PatchedDefaults(added.prefs) != Defaults()
  {
    var d := Defaults();
    var categories := CategoriesOf(d, "email");
    assert categories == Defined(DefaultCategories());
    var added := WriteCategory(d, "email", "weeklyDigest", true);
    assert added.CategoryWritten?;
    var q := added.prefs;
    var email := q.notifications["email"];
    assert CategoriesOf(q, "email") == Defined(JObj(DefaultCategories().fields["weeklyDigest" := JBool(true)]));
    assert "weeklyDigest" in email.fields["categories"].fields;
    assert "weeklyDigest" !in d.notifications["email"].fields["categories"].fields;
    PatchKeepsNestedExtraKey(JObj(q.notifications), JObj(d.notifications), "email", "categories", "weeklyDigest");
  }

  // ---------------------------------------------------------------------
  // The store

  class PreferencesStore {
    var notifications: Section
    var ui: Section
    var content: Section
    /** The updates sent to the `users` collection, oldest first. */
    var sent: seq<Update>
    /** How many times `applyTheme` has run. */
    var themeApplications: nat

    function State(): Prefs
      reads this
    {
      Prefs(notifications, ui, content)
    }

    constructor ()
      ensures State() == Defaults()
      ensures sent == [] && themeApplications == 0
    {
      var d := Defaults();
      notifications, ui, content := d.notifications, d.ui, d.content;
      sent := [];
      themeApplications := 0;
    }

    /** `isEmailEnabled`. */
    function IsEmailEnabled(): (r: Read)
      reads this
      ensures r.ReadThrew? <==> "email" !in notifications || notifications["email"] == JNull
      ensures "email" in notifications && notifications["email"].JObj? ==>
                r == Got(Lookup(notifications["email"].fields, "enabled"))
    {
      NotificationSetting(State(), "email", "enabled")
    }

    /** `emailFrequency`. */
    function EmailFrequency(): (r: Read)
      reads this
      ensures r.ReadThrew? <==> "email" !in notifications || notifications["email"] == JNull
      ensures "email" in notifications && notifications["email"].JObj? ==>
                r == Got(Lookup(notifications["email"].fields, "frequency"))
    {
      NotificationSetting(State(), "email", "frequency")
    }

    /** `isInAppEnabled`. */
    function IsInAppEnabled(): (r: Read)
      reads this
      ensures r.ReadThrew? <==> "inApp" !in notifications || notifications["inApp"] == JNull
      ensures "inApp" in notifications && notifications["inApp"].JObj? ==>
                r == Got(Lookup(notifications["inApp"].fields, "enabled"))
    {
      NotificationSetting(State(), "inApp", "enabled")
    }

    /** `profilePreferences`: the three sections together. */
    function ProfilePreferences(): (p: Prefs)
      reads this
      ensures p.notifications == notifications && p.ui == ui && p.content == content
    {
      State()
    }

    /** `applyTheme`: only the call is recorded. */
    method ApplyTheme()
      modifies this`themeApplications
      ensures themeApplications == old(themeApplications) + 1
    {
      themeApplications := themeApplications + 1;
    }

    method LoadPreferences(authenticated: bool, model: Option<Record>, parse: string -> Option<Json>)
      modifies this`notifications, this`ui, this`content, this`themeApplications
      ensures Load(old(State()), authenticated, model, parse).Loaded? ==>
                State() == Load(old(State()), authenticated, model, parse).prefs &&
                themeApplications == old(themeApplications) + 1
      ensures !Load(old(State()), authenticated, model, parse).Loaded? ==>
                State() == old(State()) && themeApplications == old(themeApplications)
    {
      if !authenticated || model.None? {
        return;
      }
      var stored := ReadStored(model.value, parse);
      match stored {
        case NoPreferences =>
        case Unparsable =>
          return;
        case Blob(blob) =>
          if blob == JNull {
            return;
          }
          notifications := MergeSection(notifications, Field(blob, "notifications"));
          ui := MergeSection(ui, Field(blob, "ui"));
          content := MergeSection(content, Field(blob, "content"));
      }
      ApplyTheme();
    }

    method SavePreferences(ctx: SaveContext) returns (ok: bool)
      modifies this`sent
      ensures ok == SaveSucceeds(ctx)
      ensures sent == old(sent) + SaveRequests(State(), ctx)
    {
      if !ctx.authenticated || ctx.model.None? {
        return false;
      }
      sent := sent + [Update(Lookup(ctx.model.value, "id"), State())];
      ok := ctx.updateSucceeds;
    }

    /** The three notification setters: one field written, then a save. */
    method SetNotificationField(channel: string, field: string, x: Json, ctx: SaveContext) returns (out: Outcome)
      modifies this
      ensures WriteNotification(old(State()), channel, field, x).None? ==>
                out == Threw && State() == old(State()) && sent == old(sent)
      ensures WriteNotification(old(State()), channel, field, x).Some? ==>
                State() == WriteNotification(old(State()), channel, field, x).value &&
                sent == old(sent) + SaveRequests(State(), ctx) && out == Returned(SaveSucceeds(ctx))
      ensures themeApplications == old(themeApplications)
    {
      match SetProp(Lookup(notifications, channel), field, x) {
        case WriteThrew =>
          out := Threw;
        case Wrote(updated) =>
          notifications := notifications[channel := updated];
          var ok := SavePreferences(ctx);
          out := Returned(ok);
      }
    }

    method ToggleEmailNotifications(enabled: bool, ctx: SaveContext) returns (out: Outcome)
      modifies this
      ensures WriteNotification(old(State()), "email", "enabled", JBool(enabled)).None? ==>
                out == Threw && State() == old(State()) && sent == old(sent)
      ensures WriteNotification(old(State()), "email", "enabled", JBool(enabled)).Some? ==>
                State() == WriteNotification(old(State()), "email", "enabled", JBool(enabled)).value &&
                sent == old(sent) + SaveRequests(State(), ctx) && out == Returned(SaveSucceeds(ctx))
      ensures themeApplications == old(themeApplications)
    {
      out := SetNotificationField("email", "enabled", JBool(enabled), ctx);
    }

    method SetEmailFrequency(frequency: string, ctx: SaveContext) returns (out: Outcome)
      modifies this
      ensures WriteNotification(old(State()), "email", "frequency", JStr(frequency)).None? ==>
                out == Threw && State() == old(State()) && sent == old(sent)
      ensures WriteNotification(old(State()), "email", "frequency", JStr(frequency)).Some? ==>
                State() == WriteNotification(old(State()), "email", "frequency", JStr(frequency)).value &&
                sent == old(sent) + SaveRequests(State(), ctx) && out == Returned(SaveSucceeds(ctx))
      ensures themeApplications == old(themeApplications)
    {
      out := SetNotificationField("email", "frequency", JStr(frequency), ctx);
    }

    method ToggleInAppNotifications(enabled: bool, ctx: SaveContext) returns (out: Outcome)
      modifies this
      ensures WriteNotification(old(State()), "inApp", "enabled", JBool(enabled)).None? ==>
                out == Threw && State() == old(State()) && sent == old(sent)
      ensures WriteNotification(old(State()), "inApp", "enabled", JBool(enabled)).Some? ==>
                State() == WriteNotification(old(State()), "inApp", "enabled", JBool(enabled)).value &&
                sent == old(sent) + SaveRequests(State(), ctx) && out == Returned(SaveSucceeds(ctx))
      ensures themeApplications == old(themeApplications)
    {
      out := SetNotificationField("inApp", "enabled", JBool(enabled), ctx);
    }

    method UpdateCategoryPreference(channel: string, category: string, enabled: bool, ctx: SaveContext)
      returns (out: Outcome)
      modifies this
      ensures WriteCategory(old(State()), channel, category, enabled).NoCategories? ==>
                out == Returned(false) && State() == old(State()) && sent == old(sent)
      ensures WriteCategory(old(State()), channel, category, enabled).CategoryThrew? ==>
                out == Threw && State() == old(State()) && sent == old(sent)
      ensures WriteCategory(old(State()), channel, category, enabled).CategoryWritten? ==>
                State() == WriteCategory(old(State()), channel, category, enabled).prefs &&
                sent == old(sent) + SaveRequests(State(), ctx) && out == Returned(SaveSucceeds(ctx))
      ensures themeApplications == old(themeApplications)
    {
      var step := WriteCategory(State(), channel, category, enabled);
      match step {
        case NoCategories =>
          out := Returned(false);
        case CategoryThrew =>
          out := Threw;
        case CategoryWritten(q) =>
          notifications := q.notifications;
          var ok := SavePreferences(ctx);
          out := Returned(ok);
      }
    }

    method SetTheme(theme: string, ctx: SaveContext) returns (out: Outcome)
      modifies this
      ensures State() == WriteUi(old(State()), "theme", JStr(theme))
      ensures CurrentTheme(State()) == Defined(JStr(theme))
      ensures themeApplications == old(themeApplications) + 1
      ensures sent == old(sent) + SaveRequests(State(), ctx) && out == Returned(SaveSucceeds(ctx))
    {
      ui := ui["theme" := JStr(theme)];
      ApplyTheme();
      var ok := SavePreferences(ctx);
      out := Returned(ok);
    }

    method ToggleTheme(ctx: SaveContext) returns (out: Outcome)
      modifies this
      ensures State() == WithToggledTheme(old(State()))
      ensures themeApplications == old(themeApplications) + 1
      ensures sent == old(sent) + SaveRequests(State(), ctx) && out == Returned(SaveSucceeds(ctx))
    {
      ui := ui["theme" := if Lookup(ui, "theme") == Defined(JStr("light")) then JStr("dark") else JStr("light")];
      ApplyTheme();
      var ok := SavePreferences(ctx);
      out := Returned(ok);
    }

    /** `resetPreferences`, with the defaults taking the place of the whole state. */
    method ResetPreferences(ctx: SaveContext) returns (out: Outcome)
      modifies this
      ensures State() == Defaults()
      ensures themeApplications == old(themeApplications) + 1
      ensures sent == old(sent) + SaveRequests(Defaults(), ctx) && out == Returned(SaveSucceeds(ctx))
    {
      var d := Defaults();
      notifications, ui, content := d.notifications, d.ui, d.content;
      ApplyTheme();
      var ok := SavePreferences(ctx);
      out := Returned(ok);
    }
  }
}
