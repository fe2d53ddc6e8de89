/** Saving the desktop settings and loading them again (desktop/app/settings.go). */
module SettingsFile {
  import opened Common
  import opened Settings

  // The table and the defaults of the source //////////////////////////////////////////////////////

  const SETTING_META: Table := map[
    "autoReport" := Meta(StBool, true, false),
    "autoLaunch" := Meta(StBool, true, false),
    "proxyAll" := Meta(StBool, true, false),
    "systemProxy" := Meta(StBool, true, false),
    "disconnected" := Meta(StBool, false, false),
    "googleAds" := Meta(StBool, true, false),
    "lang" := Meta(StString, true, true),
    "country" := Meta(StString, true, true),
    "localHTTPToken" := Meta(StString, true, true),
    "emailAddress" := Meta(StString, true, true),
    "userID" := Meta(StNumber, true, true),
    "userToken" := Meta(StString, true, true),
    "userPro" := Meta(StBool, true, true),
    "migratedDeviceIDForUserID" := Meta(StNumber, true, true),
    "takenSurveys" := Meta(StStringArray, true, true),
    "pastAnnouncements" := Meta(StStringArray, true, true),
    "addr" := Meta(StString, true, true),
    "socksAddr" := Meta(StString, true, true),
    "uiAddr" := Meta(StString, true, true),
    "version" := Meta(StString, false, false),
    "buildDate" := Meta(StString, false, false),
    "revisionDate" := Meta(StString, false, false),
    "enabledExperiments" := Meta(StStringArray, false, false),
    "expirydate" := Meta(StString, true, true),
    "userFirstVisit" := Meta(StBool, true, true),
    "userLoggedIn" := Meta(StBool, true, true),
    "salt" := Meta(StString, true, true)]

  const SN_SALT: string := "salt"

  const DEFAULTS: Store := map[
    "userID" := Int64(0),
    "autoReport" := Bool(true),
    "autoLaunch" := Bool(true),
    "proxyAll" := Bool(false),
    "googleAds" := Bool(true),
    "systemProxy" := Bool(true),
    "disconnected" := Bool(false),
    "lang" := Str(""),
    "localHTTPToken" := Str(""),
    "userToken" := Str(""),
    "uiAddr" := Str(""),
    "migratedDeviceIDForUserID" := Int64(0),
    "enabledExperiments" := StrArray([]),
    "country" := Str(""),
    "emailAddress" := Str(""),
    "userPro" := Bool(false),
    "userLoggedIn" := Bool(false),
    "userFirstVisit" := Bool(false),
    "referralCode" := Str(""),
    "salt" := Str("")]

  // Length, and the lower-cased first and fourth-last characters, tell all names apart.
  function Code(s: string): (int, char, char)
    requires |s| >= 4
  {
    (|s|, LowerChar(s[0]), LowerChar(s[|s| - 4]))
  }

  lemma SameLowerSameCode(j: string, k: string)
    requires |j| >= 4 && |k| >= 4 && ToLower(j) == ToLower(k)
    ensures Code(j) == Code(k)
  {
    assert |ToLower(j)| == |j| && |ToLower(k)| == |k|;
    assert ToLower(j)[0] == LowerChar(j[0]) && ToLower(k)[0] == LowerChar(k[0]);
    assert ToLower(j)[|j| - 4] == LowerChar(j[|j| - 4]) && ToLower(k)[|k| - 4] == LowerChar(k[|k| - 4]);
  }

  function Named(c: (int, char, char)): string {
    if c == (4, 'l', 'l') then "lang"
    else if c == (4, 'a', 'a') then "addr"
    else if c == (4, 's', 's') then "salt"
    else if c == (6, 'u', 'e') then "userID"
    else if c == (6, 'u', 'a') then "uiAddr"
    else if c.0 == 7 then (if c.1 == 'c' then "country" else if c.1 == 'u' then "userPro" else "version")
    else if c.0 == 8 then "proxyAll"
    else if c.0 == 9 then
      (if c.1 == 'g' then "googleAds" else if c.1 == 'u' then "userToken" else if c.1 == 's' then "socksAddr"
        else "buildDate")
    else if c.0 == 10 then (if c.1 == 'e' then "expirydate" else if c.2 == 'p' then "autoReport" else "autoLaunch")
    else if c.0 == 11 then "systemProxy"
    else if c.0 == 12 then
      (if c.1 == 'd' then "disconnected" else if c.1 == 'e' then "emailAddress" else if c.1 == 't' then "takenSurveys"
       else if c.1 == 'r' then "revisionDate" else "userLoggedIn")
    else if c.0 == 14 then (if c.1 == 'l' then "localHTTPToken" else "userFirstVisit")
    else if c.0 == 17 then "pastAnnouncements"
    else if c.0 == 18 then "enabledExperiments"
    else "migratedDeviceIDForUserID"
  }

  lemma ShortCodeNames(k: string)
    requires k in SETTING_META && |k| <= 9
    ensures |k| >= 4 && Named(Code(k)) == k
  {
  }

  lemma LongCodeNames(k: string)
    requires k in SETTING_META && |k| > 9
    ensures Named(Code(k)) == k
  {
  }

  lemma CodeNames(k: string)
    requires k in SETTING_META
    ensures |k| >= 4 && Named(Code(k)) == k
  {
    if |k| <= 9 {
      ShortCodeNames(k);
    } else {
      LongCodeNames(k);
    }
  }

  /** No two names of the table differ only in case. */
  lemma SettingMetaIsOk()
    ensures TableOk(SETTING_META)
  {
    forall j, k | j in SETTING_META && k in SETTING_META && ToLower(j) == ToLower(k) ensures j == k {
      CodeNames(j);
      CodeNames(k);
      SameLowerSameCode(j, k);
    }
  }

  // Getters //////////////////////////////////////////////////////////////////////////////////////

  function GetBool(m: Store, name: string): bool {
    name in m && m[name].Bool? && m[name].b
  }

  function GetString(m: Store, name: string): string {
    if name in m && m[name].Str? then m[name].s else ""
  }

  function GetInt64(m: Store, name: string): int {
    if name in m && (m[name].Int64? || m[name].Int?) then m[name].n else 0
  }

  function GetStringArray(m: Store, name: string): seq<string> {
    if name in m && m[name].StrArray? then m[name].items
    else if name in m && m[name].List? then m[name].shown
    else []
  }

  predicate SameToGetters(a: Store, b: Store, name: string) {
    && GetBool(a, name) == GetBool(b, name)
    && GetString(a, name) == GetString(b, name)
    && GetInt64(a, name) == GetInt64(b, name)
    && GetStringArray(a, name) == GetStringArray(b, name)
  }

  // Loading ///////////////////////////////////////////////////////////////////////////////////////

  // What LoadSettingsFrom is told by its caller and by the machine
  datatype Env = Env(version: string, revisionDate: string, buildDate: string, deviceID: string)

  /** What LoadSettingsFrom sets after the migration, whatever the file said. */
  function Stamped(m: Store, env: Env): Store {
    var withDevice := m[SN_DEVICE_ID := Str(env.deviceID)];
    var withUser :=
      if SN_USER_ID in m && m[SN_USER_ID].Int? then withDevice[SN_USER_ID := Int64(m[SN_USER_ID].n)] else withDevice;
    withUser[SN_VERSION := Str(env.version)][SN_BUILD_DATE := Str(env.buildDate)]
            [SN_REVISION_DATE := Str(env.revisionDate)]
  }

  /** LoadSettingsFrom; None for a file that cannot be read or unmarshalled. */
  method LoadSettingsFrom(meta: Table, defaults: Store, file: Option<Store>, env: Env) returns (s: Settings)
    requires TableOk(meta)
    ensures fresh(s) && s.meta == meta
    ensures LoadsAs(meta, defaults, file, env, s.m)
    ensures Lookup(s.m, "deviceID") == Some(Str(env.deviceID)) && Lookup(s.m, "version") == Some(Str(env.version))
    ensures Lookup(s.m, "buildDate") == Some(Str(env.buildDate))
    ensures Lookup(s.m, "revisionDate") == Some(Str(env.revisionDate))
    ensures "userID" in s.m ==> !s.m["userID"].Int?
  {
    s := new Settings(meta, defaults);
    if file.Some? {
      s.m := s.m + file.value;
    }
    s.m := ToCamelCase(s.m, meta);
    ghost var migrated := s.m;
    s.m := s.m[SN_DEVICE_ID := Str(env.deviceID)];
    if SN_USER_ID in s.m && s.m[SN_USER_ID].Int? {
      s.m := s.m[SN_USER_ID := Int64(s.m[SN_USER_ID].n)];
    }
    s.m := s.m[SN_VERSION := Str(env.version)];
    s.m := s.m[SN_BUILD_DATE := Str(env.buildDate)];
    s.m := s.m[SN_REVISION_DATE := Str(env.revisionDate)];
    assert s.m == Stamped(migrated, env);
  }

  // Save, then load //////////////////////////////////////////////////////////////////////////////////

  /** Values the typed setters store, and what a load turns them into. */
  predicate Storable(v: Value) {
    v.Bool? || v.Str? || v.Int? || v.Int64? || v.StrArray? || v.List? || v.Null?
  }

  /** Marshalling to YAML and back, entry by entry: integers lose their width, string arrays become lists. */
  ghost predicate CodecOk(reload: Value -> Value) {
    forall v: Value :: Storable(v) ==>
      match v
      case Int(n) => reload(v) == Int(n) || reload(v) == Int64(n)
      case Int64(n) => reload(v) == Int(n) || reload(v) == Int64(n)
      case StrArray(items) => reload(v) == List(items)
      case _ => reload(v) == v
  }

  function Reloaded(saved: Store, reload: Value -> Value): Store {
    map k | k in saved :: reload(saved[k])
  }

  /** Default keys are names of the table, or not all lower case. */
  predicate DefaultsOk(meta: Table, defaults: Store) {
    forall k :: k in defaults ==> k in meta || ToLower(k) != k
  }

  lemma SettingDefaultsAreOk()
    ensures DefaultsOk(SETTING_META, DEFAULTS)
  {
    assert ToLower("referralCode")[8] == 'c' && "referralCode"[8] == 'C';
  }

  /** The keys LoadSettingsFrom sets itself, besides the user ID. */
  predicate SetOnLoad(k: string) {
    k == SN_DEVICE_ID || k == SN_VERSION || k == SN_BUILD_DATE || k == SN_REVISION_DATE
  }

  predicate NotPersisted(meta: Table, k: string) {
    k !in meta || !meta[k].persist
  }

  // What the setters store ////////////////////////////////////////////////////////////////////////////

  /** A value of the type of its name. The salt is stored as bytes by one setter and as a string by another. */
  predicate Fits(meta: Table, k: string, v: Value) {
    k == SN_SALT ||
    if k !in meta then Storable(v)
    else
      match meta[k].sType
      case StBool => v.Bool?
      case StNumber => v.Int64?
      case StString => v.Str?
      case StStringArray => v.StrArray?
  }

  /** What the setters pass to setVals. */
  predicate Fitting(meta: Table, vals: Store) {
    forall k :: k in vals ==> Fits(meta, k, vals[k])
  }

  /** What a store holds after setters and loads: apart from the salt only storable values, and bools
      where bools belong. */
  predicate Sound(meta: Table, m: Store) {
    forall k :: k in m && k != SN_SALT ==> Storable(m[k]) && (k in meta && meta[k].sType.StBool? ==> m[k].Bool?)
  }

  lemma FittingIsSound(meta: Table, vals: Store)
    requires Fitting(meta, vals)
    ensures Sound(meta, vals)
  {
  }

  /** The map after a sequence of setVals. */
  function AfterSets(m: Store, updates: seq<Store>): Store {
    if updates == [] then m else AfterSets(m, updates[..|updates| - 1]) + updates[|updates| - 1]
  }

  function LastSet(updates: seq<Store>, k: string): Option<Value> {
    if updates == [] then None
    else if k in updates[|updates| - 1] then Some(updates[|updates| - 1][k])
    else LastSet(updates[..|updates| - 1], k)
  }

  ghost predicate AllFitting(meta: Table, updates: seq<Store>) {
    forall u :: 0 <= u < |updates| ==> Fitting(meta, updates[u])
  }

  lemma {:induction false} LastSetCounts(meta: Table, m: Store, updates: seq<Store>, k: string)
    ensures Lookup(AfterSets(m, updates), k) == if LastSet(updates, k).Some? then LastSet(updates, k) else Lookup(m, k)
    ensures AllFitting(meta, updates) && LastSet(updates, k).Some? ==> Fits(meta, k, LastSet(updates, k).value)
  {
    if updates != [] {
      LastSetCounts(meta, m, updates[..|updates| - 1], k);
    }
  }

  /** Setter calls keep the default keys, storable values, and bools in bool keys. */
  lemma {:induction false} SettersKeepSound(meta: Table, m: Store, updates: seq<Store>)
    requires Sound(meta, m) && AllFitting(meta, updates)
    ensures m.Keys <= AfterSets(m, updates).Keys && Sound(meta, AfterSets(m, updates))
  {
    if updates != [] {
      var init := updates[..|updates| - 1];
      SettersKeepSound(meta, m, init);
      FittingIsSound(meta, updates[|updates| - 1]);
    }
  }

  function UpdateOf(meta: Table, message: Option<Store>): Store {
    match message
    case None => map[]
    case Some(data) => FromUi(meta, data)
  }

  /** What the UI does is what some fitting calls of setVals do. */
  lemma {:induction false} UiMessagesAreSets(m: Store, meta: Table, messages: seq<Option<Store>>)
    returns (updates: seq<Store>)
    ensures AllFitting(meta, updates) && AfterUi(m, meta, messages) == AfterSets(m, updates)
  {
    updates := [];
    if messages != [] {
      var last := UpdateOf(meta, messages[|messages| - 1]);
      var before := UiMessagesAreSets(m, meta, messages[..|messages| - 1]);
      updates := before + [last];
      assert updates[..|updates| - 1] == before;
      assert Fitting(meta, last);
    }
  }

  // Tables like the source's ////////////////////////////////////////////////////////////////////////////

  ghost predicate GoodTable(meta: Table, defaults: Store) {
    && TableOk(meta) && DefaultsOk(meta, defaults) && Fitting(meta, defaults)
    && (forall k :: SetOnLoad(k) ==> NotPersisted(meta, k) && (k in meta ==> meta[k].sType.StString?))
    && (SN_USER_ID in meta ==> meta[SN_USER_ID].sType.StNumber?)
    && (SN_SALT in meta ==> meta[SN_SALT].sType.StString?)
  }

  lemma SetOnLoadInSource(k: string)
    requires SetOnLoad(k)
    ensures NotPersisted(SETTING_META, k) && (k in SETTING_META ==> SETTING_META[k].sType.StString?)
  {
    if k == SN_DEVICE_ID && k in SETTING_META {
      assert |SN_DEVICE_ID| == 8 && SN_DEVICE_ID[0] == 'd';
      CodeNames(k);
      assert false;
    }
  }

  // The defaults, by what they hold
  lemma DefaultKinds(k: string)
    requires k in DEFAULTS
    ensures DEFAULTS[k].Bool? ==> k in {"autoReport", "autoLaunch", "proxyAll", "googleAds", "systemProxy",
                                        "disconnected", "userPro", "userLoggedIn", "userFirstVisit"}
    ensures DEFAULTS[k].Int64? ==> k in {"userID", "migratedDeviceIDForUserID"}
    ensures DEFAULTS[k].StrArray? ==> k == "enabledExperiments"
    ensures DEFAULTS[k].Str? ==> k in {"lang", "localHTTPToken", "userToken", "uiAddr", "country", "emailAddress",
                                       "referralCode", "salt"}
    ensures DEFAULTS[k].Bool? || DEFAULTS[k].Int64? || DEFAULTS[k].StrArray? || DEFAULTS[k].Str?
  {
  }

  lemma BoolNames(k: string)
    requires k in {"autoReport", "autoLaunch", "proxyAll", "googleAds", "systemProxy", "disconnected",
                   "userPro", "userLoggedIn", "userFirstVisit"}
    ensures k in SETTING_META && SETTING_META[k].sType.StBool?
  {
  }

  lemma NumberAndListNames(k: string)
    ensures k in {"userID", "migratedDeviceIDForUserID"} ==> k in SETTING_META && SETTING_META[k].sType.StNumber?
    ensures k == "enabledExperiments" ==> k in SETTING_META && SETTING_META[k].sType.StStringArray?
  {
  }

  lemma StringNames(k: string)
    requires k in {"lang", "localHTTPToken", "userToken", "uiAddr", "country", "emailAddress", "referralCode", "salt"}
    ensures k in SETTING_META ==> SETTING_META[k].sType.StString?
  {
    if k in SETTING_META {
      CodeNames(k);
    }
  }

  lemma DefaultFits(k: string)
    requires k in DEFAULTS
    ensures Fits(SETTING_META, k, DEFAULTS[k])
  {
    DefaultKinds(k);
    NumberAndListNames(k);
    if DEFAULTS[k].Bool? {
      BoolNames(k);
    } else if DEFAULTS[k].Str? {
      StringNames(k);
    }
  }

  /** The source's own table and defaults are such a table. */
  lemma SourceTableIsGood()
    ensures GoodTable(SETTING_META, DEFAULTS)
  {
    SettingMetaIsOk();
    SettingDefaultsAreOk();
    forall k | k in DEFAULTS ensures Fits(SETTING_META, k, DEFAULTS[k]) {
      DefaultFits(k);
    }
    forall k | SetOnLoad(k)
      ensures NotPersisted(SETTING_META, k) && (k in SETTING_META ==> SETTING_META[k].sType.StString?)
    {
      SetOnLoadInSource(k);
    }
    NumberAndListNames(SN_USER_ID);
    StringNames(SN_SALT);
  }

  // Any number of sessions //////////////////////////////////////////////////////////////////////////////

  function Base(defaults: Store, file: Option<Store>): Store {
    if file.Some? then defaults + file.value else defaults
  }

  /** `m` is what LoadSettingsFrom makes of a file that unmarshals to `file`. */
  ghost predicate LoadsAs(meta: Table, defaults: Store, file: Option<Store>, env: Env, m: Store) {
    exists r :: IsMigrated(Base(defaults, file), meta.Keys, r) && m == Stamped(r, env)
  }

  /** What the file unmarshals to after a session that began with `m`: every setVals writes it, and
      nothing else does. */
  function FileAfter(
    meta: Table, reload: Value -> Value, file: Option<Store>, m: Store, updates: seq<Store>): Option<Store>
  {
    if updates == [] then file else Some(Reloaded(Persisted(AfterSets(m, updates), meta), reload))
  }

  datatype Session = Session(env: Env, updates: seq<Store>)

  /** Running the sessions, beginning with the file `first`, if any, leaves `file`. */
  ghost predicate Sessions(
    meta: Table, defaults: Store, reload: Value -> Value, first: Option<Store>, sessions: seq<Session>,
    file: Option<Store>)
  {
    if sessions == [] then file == first
    else
      var last := sessions[|sessions| - 1];
      AllFitting(meta, last.updates) &&
      exists before: Option<Store>, m: Store ::
        && Sessions(meta, defaults, reload, first, sessions[..|sessions| - 1], before)
        && LoadsAs(meta, defaults, before, last.env, m)
        && file == FileAfter(meta, reload, before, m, last.updates)
  }

  /** No file, or one the program wrote itself. */
  ghost predicate OwnFile(meta: Table, defaults: Store, file: Option<Store>) {
    file.Some? ==>
      && Sound(meta, file.value)
      && (forall k :: k in file.value ==> k in meta && meta[k].persist)
      && (forall k :: k in defaults && k in meta && meta[k].persist ==> k in file.value)
  }

  lemma ReloadedIsSound(meta: Table, file: Store, reload: Value -> Value)
    requires Sound(meta, file) && CodecOk(reload)
    ensures Sound(meta, Reloaded(file, reload))
  {
    forall k | k in file && k != SN_SALT
      ensures Storable(reload(file[k])) && (k in meta && meta[k].sType.StBool? ==> reload(file[k]).Bool?)
    {
      assert Storable(file[k]);
    }
  }

  /** Loading a file with canonical keys only migrates nothing. */
  lemma LoadsAsItIs(meta: Table, defaults: Store, file: Option<Store>, env: Env, m: Store)
    requires GoodTable(meta, defaults) && LoadsAs(meta, defaults, file, env, m)
    requires file.Some? ==> forall k :: k in file.value ==> k in meta
    ensures m == Stamped(Base(defaults, file), env)
  {
    var base := Base(defaults, file);
    var r :| IsMigrated(base, meta.Keys, r) && m == Stamped(r, env);
    forall x ensures Lookup(r, x) == Lookup(base, x) {
      BaseIsMigrated(meta, defaults, file, x);
      assert Lookup(r, x) == Migrated(base, meta.Keys, x);
    }
    SameLookups(r, base);
  }

  lemma StampedIsSound(meta: Table, defaults: Store, base: Store, env: Env)
    requires GoodTable(meta, defaults) && Sound(meta, base)
    ensures Sound(meta, Stamped(base, env)) && base.Keys <= Stamped(base, env).Keys
  {
    assert forall k :: SetOnLoad(k) && k in meta ==> !meta[k].sType.StBool?;
  }

  /** Loading such a file gives a sound store that still has the default keys. */
  lemma LoadIsSound(meta: Table, defaults: Store, file: Option<Store>, env: Env, m: Store)
    requires GoodTable(meta, defaults) && LoadsAs(meta, defaults, file, env, m)
    requires file.Some? ==> Sound(meta, file.value) && forall k :: k in file.value ==> k in meta
    ensures Sound(meta, m) && defaults.Keys <= m.Keys
  {
    LoadsAsItIs(meta, defaults, file, env, m);
    FittingIsSound(meta, defaults);
    StampedIsSound(meta, defaults, Base(defaults, file), env);
  }

  lemma BaseIsMigrated(meta: Table, defaults: Store, file: Option<Store>, x: string)
    requires TableOk(meta) && DefaultsOk(meta, defaults)
    requires file.Some? ==> forall k :: k in file.value ==> k in meta
    ensures Migrated(Base(defaults, file), meta.Keys, x) == Lookup(Base(defaults, file), x)
  {
    LowerTwice(x);
    if Alias(meta.Keys, x) {
      var k :| k in meta && ToLower(k) == x && k != x;
      LowerTwice(k);
    }
  }

  lemma {:induction false} SessionsKeepOwnFile(
    meta: Table, defaults: Store, reload: Value -> Value, first: Option<Store>, sessions: seq<Session>,
    file: Option<Store>)
    requires GoodTable(meta, defaults) && CodecOk(reload) && OwnFile(meta, defaults, first)
    requires Sessions(meta, defaults, reload, first, sessions, file)
    ensures OwnFile(meta, defaults, file)
    decreases |sessions|
  {
    if sessions != [] {
      var last := sessions[|sessions| - 1];
      var before: Option<Store>, m: Store :|
        && Sessions(meta, defaults, reload, first, sessions[..|sessions| - 1], before)
        && LoadsAs(meta, defaults, before, last.env, m)
        && file == FileAfter(meta, reload, before, m, last.updates);
      SessionsKeepOwnFile(meta, defaults, reload, first, sessions[..|sessions| - 1], before);
      SessionIsSound(meta, defaults, reload, before, last, m);
    }
  }

  lemma SessionIsSound(
    meta: Table, defaults: Store, reload: Value -> Value, before: Option<Store>, session: Session, m: Store)
    requires GoodTable(meta, defaults) && CodecOk(reload) && OwnFile(meta, defaults, before)
    requires AllFitting(meta, session.updates) && LoadsAs(meta, defaults, before, session.env, m)
    ensures Sound(meta, m) && Sound(meta, AfterSets(m, session.updates))
    ensures OwnFile(meta, defaults, FileAfter(meta, reload, before, m, session.updates))
  {
    LoadIsSound(meta, defaults, before, session.env, m);
    SettersKeepSound(meta, m, session.updates);
    ReloadedIsSound(meta, Persisted(AfterSets(m, session.updates), meta), reload);
  }

  lemma SoundShowsAll(meta: Table, defaults: Store, m: Store)
    requires GoodTable(meta, defaults) && Sound(meta, m)
    ensures forall k :: k in m ==> Shown(meta, k, m[k]).Some?
  {
  }

  // One key over the sessions //////////////////////////////////////////////////////////////////////////

  /** The entry of key `k` that counts in a file: that of its lower-case spelling first, then its own,
      then the default. */
  function Effective(defaults: Store, file: Option<Store>, k: string): Option<Value> {
    if file.Some? && ToLower(k) in file.value then Some(file.value[ToLower(k)])
    else if file.Some? && k in file.value then Some(file.value[k])
    else Lookup(defaults, k)
  }

  /** Loading makes a user ID that is an int an int64. */
  function AsLoaded(k: string, v: Option<Value>): Option<Value> {
    if k == SN_USER_ID && v.Some? && v.value.Int? then Some(Int64(v.value.n)) else v
  }

  lemma EffectiveIsLoaded(meta: Table, defaults: Store, file: Option<Store>, env: Env, m: Store, k: string)
    requires GoodTable(meta, defaults) && LoadsAs(meta, defaults, file, env, m) && k in meta && !SetOnLoad(k)
    ensures Lookup(m, k) == AsLoaded(k, Effective(defaults, file, k))
  {
    var r :| IsMigrated(Base(defaults, file), meta.Keys, r) && m == Stamped(r, env);
    EffectiveIsMigrated(meta, defaults, file, k);
    assert Lookup(r, k) == Migrated(Base(defaults, file), meta.Keys, k);
  }

  lemma EffectiveIsMigrated(meta: Table, defaults: Store, file: Option<Store>, k: string)
    requires TableOk(meta) && DefaultsOk(meta, defaults) && k in meta
    ensures Migrated(Base(defaults, file), meta.Keys, k) == Effective(defaults, file, k)
  {
    LowerTwice(k);
  }

  /** What a persisted key counts as in a file the program wrote. */
  lemma EffectiveAfterSave(meta: Table, defaults: Store, reload: Value -> Value, n: Store, name: string)
    requires TableOk(meta) && name in meta && meta[name].persist
    ensures Effective(defaults, Some(Reloaded(Persisted(n, meta), reload)), name) ==
      if name in n then Some(reload(n[name])) else Lookup(defaults, name)
  {
    LowerTwice(name);
  }

  /** What a file says about `name`, by whatever spelling, is a storable value. */
  predicate SaysStorable(defaults: Store, file: Option<Store>, name: string) {
    Effective(defaults, file, name).Some? ==> Storable(Effective(defaults, file, name).value)
  }

  predicate HoldsStorable(defaults: Store, n: Store, name: string) {
    if name in n then Storable(n[name]) else name !in defaults
  }

  lemma SessionKeepsName(
    meta: Table, defaults: Store, reload: Value -> Value, before: Option<Store>, session: Session, m: Store,
    name: string)
    requires GoodTable(meta, defaults) && CodecOk(reload) && SaysStorable(defaults, before, name)
    requires AllFitting(meta, session.updates) && LoadsAs(meta, defaults, before, session.env, m)
    requires name in meta && meta[name].persist && name != SN_SALT
    ensures HoldsStorable(defaults, AfterSets(m, session.updates), name)
    ensures SaysStorable(defaults, FileAfter(meta, reload, before, m, session.updates), name)
  {
    NotSetOnLoad(meta, defaults, name);
    EffectiveIsLoaded(meta, defaults, before, session.env, m, name);
    SettersHoldStorable(meta, defaults, before, m, session.updates, name);
    if session.updates != [] {
      SavedSaysStorable(meta, defaults, reload, AfterSets(m, session.updates), name);
    }
  }

  lemma NotSetOnLoad(meta: Table, defaults: Store, name: string)
    requires GoodTable(meta, defaults) && name in meta && meta[name].persist
    ensures !SetOnLoad(name)
  {
  }

  lemma {:induction false} SettersHoldStorable(
    meta: Table, defaults: Store, file: Option<Store>, m: Store, updates: seq<Store>, name: string)
    requires AllFitting(meta, updates) && name in meta && name != SN_SALT
    requires SaysStorable(defaults, file, name) && Lookup(m, name) == AsLoaded(name, Effective(defaults, file, name))
    ensures HoldsStorable(defaults, AfterSets(m, updates), name)
  {
    LastSetCounts(meta, m, updates, name);
  }

  lemma SavedSaysStorable(meta: Table, defaults: Store, reload: Value -> Value, n: Store, name: string)
    requires TableOk(meta) && CodecOk(reload) && HoldsStorable(defaults, n, name) && name in meta && meta[name].persist
    ensures SaysStorable(defaults, Some(Reloaded(Persisted(n, meta), reload)), name)
  {
    EffectiveAfterSave(meta, defaults, reload, n, name);
  }

  lemma {:induction false} SessionsKeepName(
    meta: Table, defaults: Store, reload: Value -> Value, first: Option<Store>, sessions: seq<Session>,
    file: Option<Store>, name: string)
    requires GoodTable(meta, defaults) && CodecOk(reload) && SaysStorable(defaults, first, name)
    requires Sessions(meta, defaults, reload, first, sessions, file)
    requires name in meta && meta[name].persist && name != SN_SALT
    ensures SaysStorable(defaults, file, name)
    decreases |sessions|
  {
    if sessions != [] {
      var last := sessions[|sessions| - 1];
      var before: Option<Store>, m: Store :|
        && Sessions(meta, defaults, reload, first, sessions[..|sessions| - 1], before)
        && LoadsAs(meta, defaults, before, last.env, m)
        && file == FileAfter(meta, reload, before, m, last.updates);
      SessionsKeepName(meta, defaults, reload, first, sessions[..|sessions| - 1], before, name);
      SessionKeepsName(meta, defaults, reload, before, last, m, name);
    }
  }

  /** After any number of sessions of loading and setting, and in the next one too, another restart changes
      no getter of a persisted key, whatever file came first and however its keys were spelt, as long as
      what it said about the key was a storable value. Only the salt, whose fate depends on the codec,
      is left out. */
  lemma RestartKeepsSettings(
    meta: Table, defaults: Store, reload: Value -> Value, first: Option<Store>, sessions: seq<Session>,
    file: Option<Store>, session: Session, m: Store, env: Env, again: Store, name: string)
    requires GoodTable(meta, defaults) && CodecOk(reload)
    requires Sessions(meta, defaults, reload, first, sessions, file)
    requires LoadsAs(meta, defaults, file, session.env, m) && AllFitting(meta, session.updates)
    requires LoadsAs(meta, defaults, FileAfter(meta, reload, file, m, session.updates), env, again)
    requires name in meta && meta[name].persist && name != SN_SALT && SaysStorable(defaults, first, name)
    ensures SameToGetters(again, AfterSets(m, session.updates), name)
  {
    SessionsKeepName(meta, defaults, reload, first, sessions, file, name);
    SessionKeepsName(meta, defaults, reload, file, session, m, name);
    NotSetOnLoad(meta, defaults, name);
    EffectiveIsLoaded(meta, defaults, FileAfter(meta, reload, file, m, session.updates), env, again, name);
    if session.updates == [] {
      EffectiveIsLoaded(meta, defaults, file, session.env, m, name);
      SameLookupSameGetters(again, m, name);
    } else {
      EffectiveAfterSave(meta, defaults, reload, AfterSets(m, session.updates), name);
      SavedValueSurvives(defaults, reload, AfterSets(m, session.updates), again, name);
    }
  }

  lemma SameLookupSameGetters(a: Store, b: Store, name: string)
    requires Lookup(a, name) == Lookup(b, name)
    ensures SameToGetters(a, b, name)
  {
  }

  /** The heart of the round trip: one key, saved from `n` and loaded again. */
  lemma SavedValueSurvives(defaults: Store, reload: Value -> Value, n: Store, again: Store, name: string)
    requires CodecOk(reload) && HoldsStorable(defaults, n, name)
    requires Lookup(again, name) ==
      AsLoaded(name, if name in n then Some(reload(n[name])) else Lookup(defaults, name))
    ensures SameToGetters(again, n, name)
  {
    if name in n {
      assert Storable(n[name]);
    }
  }

  /** What a setter set last is what its getter returns, at once and after a restart. */
  lemma SetIsGot(
    meta: Table, defaults: Store, reload: Value -> Value, first: Option<Store>, sessions: seq<Session>,
    file: Option<Store>, session: Session, m: Store, env: Env, again: Store, name: string)
    requires GoodTable(meta, defaults) && CodecOk(reload)
    requires Sessions(meta, defaults, reload, first, sessions, file)
    requires LoadsAs(meta, defaults, file, session.env, m) && AllFitting(meta, session.updates)
    requires LoadsAs(meta, defaults, FileAfter(meta, reload, file, m, session.updates), env, again)
    requires name in meta && meta[name].persist && name != SN_SALT && SaysStorable(defaults, first, name)
    requires LastSet(session.updates, name).Some?
    ensures Gets(AfterSets(m, session.updates), name, LastSet(session.updates, name).value)
    ensures Gets(again, name, LastSet(session.updates, name).value)
  {
    RestartKeepsSettings(meta, defaults, reload, first, sessions, file, session, m, env, again, name);
    LastSetCounts(meta, m, session.updates, name);
  }

  /** The getter that goes with `v` returns what `v` holds. */
  predicate Gets(m: Store, name: string, v: Value) {
    && (v.Bool? ==> GetBool(m, name) == v.b)
    && (v.Str? ==> GetString(m, name) == v.s)
    && (v.Int64? ==> GetInt64(m, name) == v.n)
    && (v.StrArray? ==> GetStringArray(m, name) == v.items)
  }

  /** What the getters make of a key that is missing or of another type, and of what a load leaves. */
  lemma GettersOtherwise(m: Store, name: string)
    ensures !(name in m && m[name].Bool?) ==> GetBool(m, name) == false
    ensures !(name in m && m[name].Str?) ==> GetString(m, name) == ""
    ensures name in m && m[name].Int? ==> GetInt64(m, name) == m[name].n
    ensures !(name in m && (m[name].Int? || m[name].Int64?)) ==> GetInt64(m, name) == 0
    ensures name in m && m[name].List? ==> GetStringArray(m, name) == m[name].shown
    ensures !(name in m && (m[name].List? || m[name].StrArray?)) ==> GetStringArray(m, name) == []
  {
  }

  /** Beginning with no file, or with one the program wrote, uiMap never panics: after any number of
      sessions not after the next load, nor after any calls of the setters, whatever salt they save. */
  lemma OwnFilesNeverPanic(
    meta: Table, defaults: Store, reload: Value -> Value, first: Option<Store>, sessions: seq<Session>,
    file: Option<Store>, session: Session, m: Store)
    requires GoodTable(meta, defaults) && CodecOk(reload) && OwnFile(meta, defaults, first)
    requires Sessions(meta, defaults, reload, first, sessions, file)
    requires LoadsAs(meta, defaults, file, session.env, m) && AllFitting(meta, session.updates)
    ensures forall k :: k in m ==> Shown(meta, k, m[k]).Some?
    ensures var n := AfterSets(m, session.updates); forall k :: k in n ==> Shown(meta, k, n[k]).Some?
  {
    SessionsKeepOwnFile(meta, defaults, reload, first, sessions, file);
    SessionIsSound(meta, defaults, reload, file, session, m);
    SoundShowsAll(meta, defaults, m);
    SoundShowsAll(meta, defaults, AfterSets(m, session.updates));
  }

  // What uiMap does with a file from elsewhere /////////////////////////////////////////////////////////

  /** uiMap shows key `k` of the store. */
  predicate IsShown(meta: Table, m: Store, k: string) {
    k in m && Shown(meta, k, m[k]) == Some(true)
  }

  /** For every file and every later sequence of setter calls, uiMap panics exactly when, for some bool key
      that is omitted when empty, the entry that counts in the file is neither a bool nor nil and no call
      has set the key since. */
  lemma UiMapPanicsExactly(meta: Table, defaults: Store, file: Option<Store>, env: Env, m: Store, updates: seq<Store>)
    requires GoodTable(meta, defaults) && LoadsAs(meta, defaults, file, env, m) && AllFitting(meta, updates)
    ensures var n := AfterSets(m, updates);
      (exists k :: k in n && Shown(meta, k, n[k]).None?) <==>
      (exists k :: k in meta && PanicsAt(meta, defaults, file, updates, k))
  {
    var n := AfterSets(m, updates);
    if k: string :| k in n && Shown(meta, k, n[k]).None? {
      PanicsThere(meta, defaults, file, env, m, updates, k);
    }
    if k: string :| k in meta && PanicsAt(meta, defaults, file, updates, k) {
      PanicsThere(meta, defaults, file, env, m, updates, k);
      assert k in n && Shown(meta, k, n[k]).None?;
    }
  }

  predicate PanicsAt(meta: Table, defaults: Store, file: Option<Store>, updates: seq<Store>, k: string)
    requires k in meta
  {
    && meta[k].omitempty && meta[k].sType.StBool? && LastSet(updates, k).None?
    && var v := Effective(defaults, file, k); v.Some? && !v.value.Bool? && !v.value.Null?
  }

  lemma PanicsThere(meta: Table, defaults: Store, file: Option<Store>, env: Env, m: Store,
    updates: seq<Store>, k: string)
    requires GoodTable(meta, defaults) && LoadsAs(meta, defaults, file, env, m) && AllFitting(meta, updates)
    requires k in meta
    ensures var n := AfterSets(m, updates);
      k in n && Shown(meta, k, n[k]).None? <==> PanicsAt(meta, defaults, file, updates, k)
  {
    if meta[k].sType.StBool? {
      assert !SetOnLoad(k);
      EffectiveIsLoaded(meta, defaults, file, env, m, k);
      LastSetCounts(meta, m, updates, k);
    }
  }

  /** A number key that is omitted when empty is shown exactly when it was set since the load, or what
      counts in the file is neither nil nor the int 0; the user ID is shown even then, because loading
      makes it an int64. */
  lemma NumberShownExactly(meta: Table, defaults: Store, file: Option<Store>, env: Env, m: Store,
    updates: seq<Store>, k: string)
    requires GoodTable(meta, defaults) && LoadsAs(meta, defaults, file, env, m) && AllFitting(meta, updates)
    requires k in meta && meta[k].omitempty && meta[k].sType.StNumber?
    ensures IsShown(meta, AfterSets(m, updates), k) <==>
      || LastSet(updates, k).Some?
      || (var v := Effective(defaults, file, k); v.Some? && !v.value.Null? && (v.value != Int(0) || k == SN_USER_ID))
  {
    assert !SetOnLoad(k) && k != SN_SALT;
    EffectiveIsLoaded(meta, defaults, file, env, m, k);
    LastSetCounts(meta, m, updates, k);
  }

  /** A list key that is omitted when empty is shown exactly when it was set since the load, or is an array
      of strings already, which no value unmarshalled from a file is. */
  lemma ListShownExactly(meta: Table, defaults: Store, file: Option<Store>, env: Env, m: Store,
    updates: seq<Store>, k: string)
    requires GoodTable(meta, defaults) && LoadsAs(meta, defaults, file, env, m) && AllFitting(meta, updates)
    requires k in meta && meta[k].omitempty && meta[k].sType.StStringArray?
    ensures IsShown(meta, AfterSets(m, updates), k) <==>
      LastSet(updates, k).Some? || (var v := Effective(defaults, file, k); v.Some? && v.value.StrArray?)
  {
    assert !SetOnLoad(k) && k != SN_SALT && k != SN_USER_ID;
    EffectiveIsLoaded(meta, defaults, file, env, m, k);
    LastSetCounts(meta, m, updates, k);
  }

  const USER_PRO_FILE: Store := map["userpro" := Str("yes")]
  const SURVEYS_FILE: Store := map["takenSurveys" := List(["a"])]

  lemma ThreeKeys()
    ensures "userPro" in SETTING_META && SETTING_META["userPro"] == Meta(StBool, true, true)
    ensures "userID" in SETTING_META && SETTING_META["userID"] == Meta(StNumber, true, true)
    ensures "takenSurveys" in SETTING_META && SETTING_META["takenSurveys"] == Meta(StStringArray, true, true)
    ensures ToLower("userPro") == "userpro"
  {
  }

  lemma UserProFilePanics()
    ensures "userPro" in SETTING_META && PanicsAt(SETTING_META, DEFAULTS, Some(USER_PRO_FILE), [], "userPro")
  {
    ThreeKeys();
    assert Effective(DEFAULTS, Some(USER_PRO_FILE), "userPro") == Some(Str("yes"));
  }

  /** With the source's own table: a file with a string under an alias of userPro makes uiMap panic. */
  lemma PanicExample(env: Env, m: Store)
    requires LoadsAs(SETTING_META, DEFAULTS, Some(USER_PRO_FILE), env, m)
    ensures "userPro" in m && Shown(SETTING_META, "userPro", m["userPro"]).None?
  {
    SourceTableIsGood();
    UserProFilePanics();
    PanicsThere(SETTING_META, DEFAULTS, Some(USER_PRO_FILE), env, m, [], "userPro");
  }

  lemma ZeroByDefault()
    ensures Effective(DEFAULTS, None, SN_USER_ID) == Some(Int64(0)) && !SetOnLoad(SN_USER_ID)
  {
    assert |SN_USER_ID| == 6 && |SN_DEVICE_ID| == 8;
  }

  /** With no file at all a user ID of zero is shown. */
  lemma ZeroShownExample(env: Env, m: Store)
    requires LoadsAs(SETTING_META, DEFAULTS, None, env, m)
    ensures GetInt64(m, SN_USER_ID) == 0 && IsShown(SETTING_META, m, SN_USER_ID)
  {
    SourceTableIsGood();
    ThreeKeys();
    ZeroByDefault();
    EffectiveIsLoaded(SETTING_META, DEFAULTS, None, env, m, SN_USER_ID);
    NumberShownExactly(SETTING_META, DEFAULTS, None, env, m, [], SN_USER_ID);
  }

  /** A list from the file is not shown, although the getter returns it. */
  lemma HiddenListExample(env: Env, m: Store)
    requires LoadsAs(SETTING_META, DEFAULTS, Some(SURVEYS_FILE), env, m)
    ensures GetStringArray(m, "takenSurveys") == ["a"] && !IsShown(SETTING_META, m, "takenSurveys")
  {
    SourceTableIsGood();
    ThreeKeys();
    NotInSurveysFile();
    EffectiveIsLoaded(SETTING_META, DEFAULTS, Some(SURVEYS_FILE), env, m, "takenSurveys");
    ListShownExactly(SETTING_META, DEFAULTS, Some(SURVEYS_FILE), env, m, [], "takenSurveys");
  }

  lemma NotInSurveysFile()
    ensures ToLower("takenSurveys") !in SURVEYS_FILE && !SetOnLoad("takenSurveys") && "takenSurveys" != SN_USER_ID
  {
    assert ToLower("takenSurveys")[5] == 's' && "takenSurveys"[5] == 'S';
    assert |"takenSurveys"| == 12 && |SN_USER_ID| == 6;
  }
}
