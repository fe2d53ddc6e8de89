/** The desktop settings store (desktop/app/settings.go): a typed map that is persisted on every
    change, migrated from older key spellings on load, and updated from the UI. */
module Settings {
  import opened Common

  // interface{} values; a []interface{} is known by how its items print, which is all that is used
  datatype Value =
    | Null
    | Bool(b: bool)
    | Int(n: int)
    | Int64(n: int)
    | Str(s: string)
    | StrArray(items: seq<string>)
    | List(shown: seq<string>)
    | Number(int64: Option<int>)    // a json.Number, and its int64 value if it has one
    | Blob(bytes: string)           // []byte
    | Other                         // any other dynamic type

  datatype SettingType = StBool | StNumber | StString | StStringArray

  datatype Meta = Meta(sType: SettingType, persist: bool, omitempty: bool)

  const SN_USER_ID: string := "userID"
  const SN_DEVICE_ID: string := "deviceID"
  const SN_VERSION: string := "version"
  const SN_BUILD_DATE: string := "buildDate"
  const SN_REVISION_DATE: string := "revisionDate"

  type Store = map<string, Value>
  type Table = map<string, Meta>

  function LowerChar(c: char): char {
    if 'A' <= c <= 'Z' then ((c as int) + 32) as char else c
  }

  function ToLower(s: string): string {
    seq(|s|, i requires 0 <= i < |s| => LowerChar(s[i]))
  }

  lemma LowerTwice(s: string)
    ensures ToLower(ToLower(s)) == ToLower(s)
  {
  }

  /** No two names differ only in case. */
  ghost predicate TableOk(meta: Table) {
    forall j, k :: j in meta && k in meta && ToLower(j) == ToLower(k) ==> j == k
  }

  // Key migration ////////////////////////////////////////////////////////////////////////////////

  /** `x` is the lower-case spelling of one of `names` that is written differently. */
  ghost predicate Alias(names: set<string>, x: string) {
    exists k :: k in names && ToLower(k) == x && k != x
  }

  function Lookup(m: Store, x: string): Option<Value> {
    if x in m then Some(m[x]) else None
  }

  /** What migrating `names` leaves under key `x`: a name takes over the value of its lower-case
      spelling, whose own entry disappears; everything else stays. */
  ghost function Migrated(m: Store, names: set<string>, x: string): Option<Value> {
    if x in names && ToLower(x) in m then Some(m[ToLower(x)])
    else if Alias(names, x) then None
    else Lookup(m, x)
  }

  ghost predicate IsMigrated(m: Store, names: set<string>, r: Store) {
    forall x :: Lookup(r, x) == Migrated(m, names, x)
  }

  /** One turn of the loop in toCamelCase. */
  function MigrateOne(m: Store, k: string): Store {
    if ToLower(k) in m then (m - {ToLower(k)})[k := m[ToLower(k)]] else m
  }

  lemma MigrateOneMore(m: Store, names: set<string>, r: Store, k: string)
    requires IsMigrated(m, names, r) && k !in names
    requires forall j :: j in names ==> ToLower(j) != ToLower(k)
    ensures IsMigrated(m, names + {k}, MigrateOne(r, k))
  {
    LowerTwice(k);
    var t := MigrateOne(r, k);
    assert Lookup(r, ToLower(k)) == Lookup(m, ToLower(k)) by {
      assert ToLower(k) !in names;
    }
    forall x ensures Lookup(t, x) == Migrated(m, names + {k}, x) {
      assert Lookup(r, x) == Migrated(m, names, x);
      assert Alias(names + {k}, x) <==> Alias(names, x) || (ToLower(k) == x && k != x);
    }
  }

  /** toCamelCase, in place on the map, over the table in whatever order it is ranged over: every order
      leaves the same map. */
  method ToCamelCase(m: Store, meta: Table) returns (r: Store)
    requires TableOk(meta)
    ensures IsMigrated(m, meta.Keys, r)
  {
    r := m;
    var left := meta.Keys;
    while left != {}
      invariant left <= meta.Keys
      invariant IsMigrated(m, meta.Keys - left, r)
      decreases left
    {
      var k :| k in left;
      MigrateOneMore(m, meta.Keys - left, r, k);
      var lowerCased := ToLower(k);
      if lowerCased in r {
        var v := r[lowerCased];
        r := r - {lowerCased};
        r := r[k := v];
      }
      assert meta.Keys - left + {k} == meta.Keys - (left - {k});
      left := left - {k};
    }
    assert meta.Keys - left == meta.Keys;
  }

  /** There is only one migrated map, and migrating it again changes nothing. */
  lemma MigrationIsIdempotent(m: Store, meta: Table, r: Store, again: Store)
    requires TableOk(meta) && IsMigrated(m, meta.Keys, r) && IsMigrated(r, meta.Keys, again)
    ensures again == r
  {
    forall x ensures Lookup(again, x) == Lookup(r, x) {
      assert Lookup(again, x) == Migrated(r, meta.Keys, x) && Lookup(r, x) == Migrated(m, meta.Keys, x);
      assert Lookup(r, ToLower(x)) == Migrated(m, meta.Keys, ToLower(x));
      LowerTwice(x);
    }
    SameLookups(again, r);
  }

  lemma MigrationIsUnique(m: Store, meta: Table, a: Store, b: Store)
    requires IsMigrated(m, meta.Keys, a) && IsMigrated(m, meta.Keys, b)
    ensures a == b
  {
    forall x ensures Lookup(a, x) == Lookup(b, x) {
      assert Lookup(a, x) == Migrated(m, meta.Keys, x) && Lookup(b, x) == Migrated(m, meta.Keys, x);
    }
    SameLookups(a, b);
  }

  lemma SameLookups(a: Store, b: Store)
    requires forall x :: Lookup(a, x) == Lookup(b, x)
    ensures a == b
  {
    forall x ensures x in a <==> x in b {
      assert Lookup(a, x) == Lookup(b, x);
    }
    forall x | x in a ensures a[x] == b[x] {
      assert Lookup(a, x) == Lookup(b, x);
    }
  }

  /** An alias moves to its canonical key and wins over what was there; keys that are neither names
      nor aliases of names keep their value. */
  lemma MigrationMovesAliases(m: Store, meta: Table, r: Store, k: string)
    requires TableOk(meta) && IsMigrated(m, meta.Keys, r)
    ensures k in meta && ToLower(k) in m ==> Lookup(r, k) == Some(m[ToLower(k)])
    ensures k in meta && ToLower(k) != k ==> ToLower(k) !in r
    ensures k in meta && ToLower(k) !in m ==> Lookup(r, k) == Lookup(m, k)
    ensures k !in meta && !Alias(meta.Keys, k) ==> Lookup(r, k) == Lookup(m, k)
  {
    LowerTwice(k);
    assert Lookup(r, k) == Migrated(m, meta.Keys, k);
    assert Lookup(r, ToLower(k)) == Migrated(m, meta.Keys, ToLower(k));
  }

  // Updates from the UI //////////////////////////////////////////////////////////////////////////////

  /** setBool, setString, setNum and setStringArray: the value stored for an incoming one, if any. */
  function Accepted(sType: SettingType, v: Value): Option<Value> {
    match sType
    case StBool => if v.Bool? then Some(v) else None
    case StString => if v.Str? then Some(v) else None
    case StNumber => if v.Number? && v.int64.Some? then Some(Int64(v.int64.value)) else None
    case StStringArray =>
      if v.Null? then Some(StrArray([]))
      else if v.StrArray? then Some(v)
      else if v.List? then Some(StrArray(v.shown))
      else None
  }

  /** The entries of `vals` but for the keys in `left`. */
  function Without(vals: Store, left: set<string>): Store {
    map k | k in vals && k !in left :: vals[k]
  }

  lemma AddOne(m: Store, vals: Store, left: set<string>, k: string)
    requires k in left
    ensures m + Without(vals, left - {k}) ==
      if k in vals then (m + Without(vals, left))[k := vals[k]] else m + Without(vals, left)
  {
  }

  /** The settings one UI message changes. */
  function FromUi(meta: Table, data: Store): Store {
    map k | k in data && k in meta && Accepted(meta[k].sType, data[k]).Some? :: Accepted(meta[k].sType, data[k]).value
  }

  // nil messages stand for anything that is not a map
  function AfterUi(m: Store, meta: Table, messages: seq<Option<Store>>): Store {
    if messages == [] then m
    else
      var before := AfterUi(m, meta, messages[..|messages| - 1]);
      match messages[|messages| - 1]
      case None => before
      case Some(data) => before + FromUi(meta, data)
  }

  /** What uiMap shows of one entry; None where its type assertion panics. */
  function Shown(meta: Table, k: string, v: Value): Option<bool> {
    if k !in meta || !meta[k].omitempty then Some(true)
    else if v.Null? then Some(false)
    else
      match meta[k].sType
      case StBool => if v.Bool? then Some(v.b) else None
      case StString => Some(v != Str(""))
      case StStringArray => Some(v.StrArray?)
      case StNumber => Some(v != Int(0))
  }

  function ShownMap(m: Store, meta: Table): Store {
    map k | k in m && Shown(meta, k, m[k]) == Some(true) :: m[k]
  }

  /** What the UI is sent: the shown settings after each message that is a map. */
  function Sent(m: Store, meta: Table, messages: seq<Option<Store>>): seq<Store> {
    if messages == [] then []
    else
      Sent(m, meta, messages[..|messages| - 1]) +
      if messages[|messages| - 1].Some? then [ShownMap(AfterUi(m, meta, messages), meta)] else []
  }

  /** The entries mapToSave keeps. */
  function Persisted(m: Store, meta: Table): Store {
    map k | k in m && k in meta && meta[k].persist :: m[k]
  }

  lemma PersistedExactly(m: Store, meta: Table, k: string)
    ensures Lookup(Persisted(m, meta), k) == if k in meta && meta[k].persist then Lookup(m, k) else None
  {
  }

  class Settings {
    const meta: Table
    var m: Store
    var disk: Store       // what settings.yaml was last written from

    constructor (meta: Table, defaults: Store)
      ensures this.meta == meta && m == defaults && disk == map[]
    {
      this.meta := meta;
      m := defaults;
      disk := map[];
    }

    method SetVals(vals: Store)
      modifies this
      ensures m == old(m) + vals
      ensures disk == Persisted(m, meta)
    {
      var left := vals.Keys;
      while left != {}
        invariant left <= vals.Keys
        invariant m == old(m) + Without(vals, left)
        decreases left
      {
        var name :| name in left;
        m := m[name := vals[name]];
        left := left - {name};
      }
      assert Without(vals, left) == vals;
      Save();
    }

    method Save()
      modifies this`disk
      ensures disk == Persisted(m, meta)
    {
      disk := MapToSave();
    }

    method MapToSave() returns (r: Store)
      ensures r == Persisted(m, meta)
    {
      r := map[];
      var left := m.Keys;
      while left != {}
        invariant left <= m.Keys
        invariant r == map k | k in m && k !in left && k in meta && meta[k].persist :: m[k]
        decreases left
      {
        var k :| k in left;
        if k in meta && meta[k].persist {
          r := r[k := m[k]];
        }
        left := left - {k};
      }
    }

    method SetTyped(name: string, v: Value)
      requires name in meta
      modifies this
      ensures m == match Accepted(meta[name].sType, v) case Some(x) => old(m)[name := x] case None => old(m)
      ensures HasType(meta[name].sType, v) ==> name in m && StoredAs(v, m[name]) && disk == Persisted(m, meta)
      ensures !HasType(meta[name].sType, v) ==> m == old(m) && disk == old(disk)
    {
      var x := Accepted(meta[name].sType, v);
      if x.Some? {
        SetVals(map[name := x.value]);
      }
    }

    /** read: one message after the other, the entries of each in any order, and after each the map for
        the UI, which may panic; then `handled` messages had been answered before. */
    method Read(messages: seq<Option<Store>>) returns (handled: nat, panicked: bool, sent: seq<Store>)
      modifies this
      ensures handled <= |messages| && sent == Sent(old(m), meta, messages[..handled])
      ensures !panicked ==> handled == |messages| && m == AfterUi(old(m), meta, messages)
      ensures panicked ==>
        && handled < |messages| && messages[handled].Some?
        && m == AfterUi(old(m), meta, messages[..handled + 1]) && !BoolsHold(meta, m)
      ensures BoolsHold(meta, old(m)) ==> !panicked
      ensures old(disk) == Persisted(old(m), meta) ==> disk == Persisted(m, meta)
    {
      handled, panicked, sent := 0, false, [];
      while handled < |messages|
        invariant handled <= |messages| && sent == Sent(old(m), meta, messages[..handled])
        invariant m == AfterUi(old(m), meta, messages[..handled])
        invariant old(disk) == Persisted(old(m), meta) ==> disk == Persisted(m, meta)
      {
        assert messages[..handled + 1][..handled] == messages[..handled];
        if messages[handled].Some? {
          ReadOne(messages[handled].value);
          var ui := UiMap();
          UiMapTotalExactly(meta, m);
          if ui.None? {
            UiKeepsTypes(old(m), meta, messages[..handled + 1]);
            return handled, true, sent;
          }
          sent := sent + [ui.value];
        }
        handled := handled + 1;
      }
      assert messages[..|messages|] == messages;
    }

    method ReadOne(data: Store)
      modifies this
      ensures m == old(m) + FromUi(meta, data)
      ensures TookEntries(old(m), m, meta, data)
      ensures old(disk) == Persisted(old(m), meta) ==> disk == Persisted(m, meta)
    {
      var left := data.Keys;
      assert Without(FromUi(meta, data), left) == map[] && old(m) + map[] == old(m);
      while left != {}
        invariant left <= data.Keys
        invariant m == old(m) + Without(FromUi(meta, data), left)
        invariant old(disk) == Persisted(old(m), meta) ==> disk == Persisted(m, meta)
        decreases left
      {
        var k :| k in left;
        AddOne(old(m), FromUi(meta, data), left, k);
        if k in meta {
          SetTyped(k, data[k]);
        }
        left := left - {k};
      }
      assert Without(FromUi(meta, data), left) == FromUi(meta, data);
      TakesEntries(old(m), meta, data);
    }

    /** uiMap; None where it panics. */
    method UiMap() returns (r: Option<Store>)
      ensures r.Some? <==> forall k :: k in m ==> Shown(meta, k, m[k]).Some?
      ensures r.Some? ==> r.value == ShownMap(m, meta)
    {
      var ui: Store := map[];
      var left := m.Keys;
      while left != {}
        invariant left <= m.Keys
        invariant forall k :: k in m && k !in left ==> Shown(meta, k, m[k]).Some?
        invariant ui == map k | k in m && k !in left && Shown(meta, k, m[k]) == Some(true) :: m[k]
        decreases left
      {
        var k :| k in left;
        var v := m[k];
        if k !in meta || !meta[k].omitempty {
          ui := ui[k := v];
        } else if v != Null {
          match meta[k].sType {
            case StBool =>
              if !v.Bool? {
                return None;
              }
              if v.b {
                ui := ui[k := v];
              }
            case StString =>
              if v != Str("") {
                ui := ui[k := v];
              }
            case StStringArray =>
              if v.StrArray? {
                ui := ui[k := v];
              }
            case StNumber =>
              if v != Int(0) {
                ui := ui[k := v];
              }
          }
        }
        left := left - {k};
      }
      r := Some(ui);
    }
  }

  /** What uiMap shows: a key that is not omitted when empty always; of the others a bool that is true, a
      string that is not empty, an array of strings, a number that is not the int 0; never a nil. */
  lemma ShownExactly(meta: Table, m: Store, k: string)
    requires k in m
    ensures k !in meta || !meta[k].omitempty ==> k in ShownMap(m, meta)
    ensures k in meta && meta[k].omitempty ==>
      (k in ShownMap(m, meta) <==>
       match meta[k].sType
       case StBool => m[k] == Bool(true)
       case StString => m[k] != Str("") && m[k] != Null
       case StStringArray => m[k].StrArray?
       case StNumber => m[k] != Int(0) && m[k] != Null)
    ensures k in ShownMap(m, meta) ==> ShownMap(m, meta)[k] == m[k]
  {
  }

  /** Every key that uiMap asserts to be a bool holds one, or nil. */
  predicate BoolsHold(meta: Table, m: Store) {
    forall k :: k in m && k in meta && meta[k].omitempty && meta[k].sType.StBool? ==> m[k].Bool? || m[k].Null?
  }

  predicate AllBoolsHold(meta: Table, m: Store) {
    forall k :: k in m && k in meta && meta[k].sType.StBool? ==> m[k].Bool?
  }

  // uiMap's type assertion, key by key
  lemma UiMapTotalExactly(meta: Table, m: Store)
    ensures (forall k :: k in m ==> Shown(meta, k, m[k]).Some?) <==> BoolsHold(meta, m)
  {
    forall k | k in m ensures Shown(meta, k, m[k]).None? <==>
      k in meta && meta[k].omitempty && meta[k].sType.StBool? && !m[k].Bool? && !m[k].Null?
    {
    }
  }

  // What ends up in the store, said without the update //////////////////////////////////////////////////

  /** An entry has the type its setting asks for. */
  predicate HasType(sType: SettingType, v: Value) {
    match sType
    case StBool => v.Bool?
    case StString => v.Str?
    case StNumber => v.Number? && v.int64.Some?
    case StStringArray => v.Null? || v.StrArray? || v.List?
  }

  /** Message `i` carries an entry of the right type for key `k`. */
  predicate Carries(meta: Table, messages: seq<Option<Store>>, i: nat, k: string)
    requires i < |messages| && k in meta
  {
    messages[i].Some? && k in messages[i].value && HasType(meta[k].sType, messages[i].value[k])
  }

  /** What is stored for an entry: the same bool, string or array, the number as an int64, the printed items
      of a list, and the empty array for nil. */
  predicate StoredAs(v: Value, r: Value) {
    && (v.Bool? || v.Str? || v.StrArray? ==> r == v)
    && (v.Number? ==> r.Int64? && v.int64 == Some(r.n))
    && (v.List? ==> r == StrArray(v.shown))
    && (v.Null? ==> r == StrArray([]))
  }

  /** From message `from` on, none carries one. */
  ghost predicate Silent(meta: Table, messages: seq<Option<Store>>, from: nat, k: string)
    requires k in meta
  {
    forall j :: from <= j < |messages| ==> !Carries(meta, messages, j, k)
  }

  lemma SilentBefore(meta: Table, messages: seq<Option<Store>>, from: nat, k: string)
    requires k in meta && from < |messages| && Silent(meta, messages, from, k)
    ensures Silent(meta, messages[..|messages| - 1], from, k) && !Carries(meta, messages, |messages| - 1, k)
  {
    var init := messages[..|messages| - 1];
    forall j | from <= j < |init| ensures !Carries(meta, init, j, k) {
      assert !Carries(meta, messages, j, k);
    }
  }

  /** After any messages a key of the table holds what the last entry of the right type said. */
  lemma {:induction false} LastEntryCounts(m: Store, meta: Table, messages: seq<Option<Store>>, k: string, i: nat)
    requires k in meta && i < |messages| && Carries(meta, messages, i, k) && Silent(meta, messages, i + 1, k)
    ensures var r := AfterUi(m, meta, messages); k in r && StoredAs(messages[i].value[k], r[k])
  {
    var n := |messages| - 1;
    OneMoreEntry(AfterUi(m, meta, messages[..n]), meta, messages[n], k);
    if i < n {
      SilentBefore(meta, messages, i + 1, k);
      LastEntryCounts(m, meta, messages[..n], k, i);
    }
  }

  /** If there was none, it holds what it held before: an entry of another type changes nothing. */
  lemma {:induction false} NoEntryNoChange(m: Store, meta: Table, messages: seq<Option<Store>>, k: string)
    requires k in meta && Silent(meta, messages, 0, k)
    ensures Lookup(AfterUi(m, meta, messages), k) == Lookup(m, k)
  {
    if messages != [] {
      var n := |messages| - 1;
      SilentBefore(meta, messages, 0, k);
      NoEntryNoChange(m, meta, messages[..n], k);
      OneMoreEntry(AfterUi(m, meta, messages[..n]), meta, messages[n], k);
    }
  }

  /** From `before` to `after` every entry of the right type was stored, and no other key changed. */
  ghost predicate TookEntries(before: Store, after: Store, meta: Table, data: Store) {
    forall k :: if k in data && k in meta && HasType(meta[k].sType, data[k])
      then k in after && StoredAs(data[k], after[k])
      else Lookup(after, k) == Lookup(before, k)
  }

  lemma TakesEntries(before: Store, meta: Table, data: Store)
    ensures TookEntries(before, before + FromUi(meta, data), meta, data)
  {
  }

  lemma OneMoreEntry(before: Store, meta: Table, message: Option<Store>, k: string)
    requires k in meta
    ensures var r := if message.None? then before else before + FromUi(meta, message.value);
      if message.Some? && k in message.value && HasType(meta[k].sType, message.value[k])
      then k in r && StoredAs(message.value[k], r[k])
      else Lookup(r, k) == Lookup(before, k)
  {
  }

  /** No sequence of UI messages touches a key outside the table, makes a bool key anything but a
      bool, or makes uiMap panic. */
  lemma {:induction false} UiKeepsTypes(m: Store, meta: Table, messages: seq<Option<Store>>)
    ensures var r := AfterUi(m, meta, messages);
      && (forall k :: k !in meta ==> Lookup(r, k) == Lookup(m, k))
      && m.Keys <= r.Keys
      && (AllBoolsHold(meta, m) ==> AllBoolsHold(meta, r))
      && (BoolsHold(meta, m) ==> BoolsHold(meta, r))
  {
    if messages != [] {
      UiKeepsTypes(m, meta, messages[..|messages| - 1]);
    }
  }
}
