/**
 * The `/settings` router over the `system_config` table: list, get, update,
 * create and delete of key/value settings whose keys are unique, and the
 * database-URL masking of the system-information view. The table is a map
 * from key to setting, which makes the uniqueness of keys structural; the
 * clock that stamps `updated_at` is a parameter.
 */
module SettingsRouter {
  import opened Wrappers
  import opened Text

  datatype Setting = Setting(value: string, description: Option<string>, updatedAt: Option<real>)

  /** The dictionary every handler returns for one setting. */
  datatype SettingView = SettingView(key: string, value: string, description: Option<string>, updatedAt: Option<real>)

  datatype HttpError = HttpError(status: int, detail: string)

  type Table = map<string, Setting>

  function ViewOf(key: string, s: Setting): SettingView
  {
    SettingView(key, s.value, s.description, s.updatedAt)
  }

  function NotFound(key: string): HttpError
  {
    HttpError(404, "Setting '" + key + "' not found")
  }

  function AlreadyExists(key: string): HttpError
  {
    HttpError(409, "Setting '" + key + "' already exists")
  }

  // ---------------------------------------------------------------------
  // Key order: text compared character by character, as the database
  // orders `key` (a proper prefix comes first).

  predicate KeyLess(a: string, b: string)
    decreases |a|
  {
    if |a| == 0 then |b| > 0
    else |b| > 0 && (a[0] < b[0] || (a[0] == b[0] && KeyLess(a[1..], b[1..])))
  }

  lemma {:induction false} KeyLessIrreflexive(a: string)
    ensures !KeyLess(a, a)
    decreases |a|
  {
    if |a| > 0 {
      KeyLessIrreflexive(a[1..]);
    }
  }

  lemma {:induction false} KeyLessTransitive(a: string, b: string, c: string)
    requires KeyLess(a, b) && KeyLess(b, c)
    ensures KeyLess(a, c)
    decreases |a|
  {
    if |a| > 0 && a[0] == b[0] && b[0] == c[0] {
      KeyLessTransitive(a[1..], b[1..], c[1..]);
    }
  }

  lemma {:induction false} KeyLessTotal(a: string, b: string)
    requires a != b
    ensures KeyLess(a, b) || KeyLess(b, a)
    decreases |a|
  {
    if |a| > 0 && |b| > 0 && a[0] == b[0] {
      assert a == [a[0]] + a[1..] && b == [b[0]] + b[1..];
      KeyLessTotal(a[1..], b[1..]);
    }
  }

  predicate IsLeast(m: string, keys: set<string>)
  {
    m in keys && forall k :: k in keys && k != m ==> KeyLess(m, k)
  }

  lemma {:induction false} LeastExists(keys: set<string>)
    requires keys != {}
    ensures exists m :: IsLeast(m, keys)
    decreases keys
  {
    var x :| x in keys;
    if keys - {x} == {} {
      assert keys == {x};
      assert IsLeast(x, keys);
    } else {
      LeastExists(keys - {x});
      var y :| IsLeast(y, keys - {x});
      KeyLessTotal(x, y);
      if KeyLess(x, y) {
        forall k | k in keys && k != x ensures KeyLess(x, k) {
          if k != y {
            KeyLessTransitive(x, y, k);
          }
        }
        assert IsLeast(x, keys);
      } else {
        assert IsLeast(y, keys);
      }
    }
  }

  lemma LeastUnique(keys: set<string>, m1: string, m2: string)
    requires IsLeast(m1, keys) && IsLeast(m2, keys)
    ensures m1 == m2
  {
    if m1 != m2 {
      assert KeyLess(m1, m2) && KeyLess(m2, m1);
      KeyLessTransitive(m1, m2, m1);
      KeyLessIrreflexive(m1);
    }
  }

  /** The keys in ascending order. */
  function SortedKeys(keys: set<string>): (r: seq<string>)
    ensures |r| == |keys|
    ensures forall k :: k in r <==> k in keys
    ensures forall i, j :: 0 <= i < j < |r| ==> KeyLess(r[i], r[j])
    decreases keys
  {
    if keys == {} then []
    else
      LeastExists(keys);
      assert forall m1, m2 :: IsLeast(m1, keys) && IsLeast(m2, keys) ==> m1 == m2 by {
        forall m1, m2 | IsLeast(m1, keys) && IsLeast(m2, keys) ensures m1 == m2 {
          LeastUnique(keys, m1, m2);
        }
      }
      var m :| IsLeast(m, keys);
      var rest := SortedKeys(keys - {m});
      assert forall j :: 0 <= j < |rest| ==> KeyLess(m, rest[j]);
      [m] + rest
  }

  // ---------------------------------------------------------------------
  // The handlers on values

  /** `get_all_settings`: every setting, ordered by key. */
  function Listing(t: Table): (r: seq<SettingView>)
    ensures |r| == |t|
    ensures forall i :: 0 <= i < |r| ==> r[i].key in t && r[i] == ViewOf(r[i].key, t[r[i].key])
    ensures forall k :: k in t ==> k in KeysOf(r)
    ensures forall i, j :: 0 <= i < j < |r| ==> KeyLess(r[i].key, r[j].key)
  {
    var keys := SortedKeys(t.Keys);
    var r := seq(|keys|, i requires 0 <= i < |keys| => ViewOf(keys[i], t[keys[i]]));
    assert KeysOf(r) == keys;
    r
  }

  function KeysOf(views: seq<SettingView>): (keys: seq<string>)
    ensures |keys| == |views| && forall i :: 0 <= i < |views| ==> keys[i] == views[i].key
  {
    seq(|views|, i requires 0 <= i < |views| => views[i].key)
  }

  /** `get_setting`. */
  function Get(t: Table, key: string): (r: Result<SettingView, HttpError>)
    ensures r.Err? <==> key !in t
    ensures r.Err? ==> r.error.status == 404
    ensures r.Ok? ==> r.value.key == key && r.value == ViewOf(key, t[key])
  {
    if key in t then Ok(ViewOf(key, t[key])) else Err(NotFound(key))
  }

  /** The description an update leaves: the given one when non-empty, otherwise the old one. */
  function KeptDescription(given: Option<string>, current: Option<string>): (d: Option<string>)
    ensures given.Some? && given.value != "" ==> d == given
    ensures given == None || given == Some("") ==> d == current
  {
    if given.Some? && given.value != "" then given else current
  }

  /**
   * `update_setting`: the new table and the response. A missing key is a
   * 404 and leaves the table as it was; otherwise only that key's entry
   * changes, to the new value, the kept description and the stamp `now`.
   */
  function Update(t: Table, key: string, value: string, description: Option<string>, now: real)
    : (r: (Table, Result<SettingView, HttpError>))
    ensures key !in t ==> r.0 == t && r.1 == Err(NotFound(key))
    ensures key in t ==> r.0.Keys == t.Keys && r.1.Ok? && r.1.value == ViewOf(key, r.0[key])
    ensures key in t ==> r.0[key].value == value && r.0[key].updatedAt == Some(now)
                         && r.0[key].description == KeptDescription(description, t[key].description)
    ensures forall k :: k in t && k != key ==> k in r.0 && r.0[k] == t[k]
  {
    if key !in t then (t, Err(NotFound(key)))
    else
      var s := Setting(value, KeptDescription(description, t[key].description), Some(now));
      (t[key := s], Ok(ViewOf(key, s)))
  }

  /**
   * `create_setting`: a 409 that leaves the table as it was when the key
   * exists; otherwise the table gains exactly that key.
   */
  function Create(t: Table, key: string, value: string, description: Option<string>, now: real)
    : (r: (Table, Result<SettingView, HttpError>))
    ensures key in t ==> r.0 == t && r.1 == Err(AlreadyExists(key))
    ensures key !in t ==> r.0.Keys == t.Keys + {key} && r.0[key] == Setting(value, description, Some(now))
                          && r.1 == Ok(ViewOf(key, r.0[key]))
    ensures forall k :: k in t && k != key ==> k in r.0 && r.0[k] == t[k]
  {
    if key in t then (t, Err(AlreadyExists(key)))
    else
      var s := Setting(value, description, Some(now));
      (t[key := s], Ok(ViewOf(key, s)))
  }

  /** `delete_setting`: a 404 when absent; otherwise exactly that key goes. */
  function Delete(t: Table, key: string): (r: (Table, Result<string, HttpError>))
    ensures key !in t ==> r.0 == t && r.1 == Err(NotFound(key))
    ensures key in t ==> r.0.Keys == t.Keys - {key} && r.1 == Ok("Setting '" + key + "' deleted successfully")
    ensures forall k :: k in r.0 ==> k in t && r.0[k] == t[k]
  {
    if key !in t then (t, Err(NotFound(key)))
    else (t - {key}, Ok("Setting '" + key + "' deleted successfully"))
  }

  /** A created setting can be read back as given. */
  lemma CreateThenGet(t: Table, key: string, value: string, description: Option<string>, now: real)
    requires key !in t
    ensures Get(Create(t, key, value, description, now).0, key)
            == Ok(SettingView(key, value, description, Some(now)))
  {
  }

  /** Deleting what was just created gives back the table. */
  lemma CreateThenDelete(t: Table, key: string, value: string, description: Option<string>, now: real)
    requires key !in t
    ensures Delete(Create(t, key, value, description, now).0, key).0 == t
  {
    var t' := Create(t, key, value, description, now).0;
    assert t' - {key} == t;
  }

  /** Once deleted, a key is not found, and creating it again succeeds. */
  lemma DeleteThenGet(t: Table, key: string, value: string, description: Option<string>, now: real)
    ensures Get(Delete(t, key).0, key) == Err(NotFound(key))
    ensures Create(Delete(t, key).0, key, value, description, now).1.Ok?
  {
  }

  /** A second create of the same key is refused and changes nothing. */
  lemma CreateTwice(t: Table, key: string, v1: string, v2: string, d1: Option<string>, d2: Option<string>,
                    now1: real, now2: real)
    ensures var t1 := Create(t, key, v1, d1, now1).0;
            Create(t1, key, v2, d2, now2) == (t1, Err(AlreadyExists(key)))
  {
  }

  /** An update without a description keeps the one stored, and is read back with the new value. */
  lemma UpdateThenGet(t: Table, key: string, value: string, now: real)
    requires key in t
    ensures Get(Update(t, key, value, None, now).0, key)
            == Ok(SettingView(key, value, t[key].description, Some(now)))
  {
  }

  /** Updating a key twice with the same value at the same time is the same as once. */
  lemma UpdateIdempotent(t: Table, key: string, value: string, description: Option<string>, now: real)
    ensures var t1 := Update(t, key, value, description, now).0;
            Update(t1, key, value, description, now).0 == t1
  {
  }

  /** The listing of a table grown by one create holds one more entry. */
  lemma CreateGrowsListing(t: Table, key: string, value: string, description: Option<string>, now: real)
    requires key !in t
    ensures |Listing(Create(t, key, value, description, now).0)| == |Listing(t)| + 1
  {
    assert Create(t, key, value, description, now).0.Keys == t.Keys + {key};
  }

  // ---------------------------------------------------------------------
  // System information

  const SqlitePrefix := "sqlite:///"
  const MaskedPrefix := "sqlite:///***"

  /** The database URL as `get_system_info` shows it. */
  function MaskDatabaseUrl(url: string): string
  {
    ReplaceAll(url, SqlitePrefix, MaskedPrefix)
  }

  /** A SQLite URL has its path hidden behind "***"; other URLs are shown unchanged. */
  lemma MaskHidesPath(path: string, other: string)
    requires !Contains(path, SqlitePrefix) && !Contains(other, SqlitePrefix)
    ensures MaskDatabaseUrl(SqlitePrefix + path) == MaskedPrefix + path
    ensures MaskDatabaseUrl(other) == other
  {
    var url := SqlitePrefix + path;
    assert url[..|SqlitePrefix|] == SqlitePrefix;
    assert url[|SqlitePrefix|..] == path;
    ReplaceAllAbsent(path, SqlitePrefix, MaskedPrefix);
    ReplaceAllAbsent(other, SqlitePrefix, MaskedPrefix);
  }

  // ---------------------------------------------------------------------
  // The router over the stored table

  class SettingsStore {
    var table: Table

    constructor(initial: Table)
      ensures table == initial
    {
      table := initial;
    }

    method GetAllSettings() returns (r: seq<SettingView>)
      ensures r == Listing(table)
    {
      r := Listing(table);
    }

    method GetSetting(key: string) returns (r: Result<SettingView, HttpError>)
      ensures r == Get(table, key)
    {
      if key !in table {
        return Err(NotFound(key));
      }
      r := Ok(ViewOf(key, table[key]));
    }

    method UpdateSetting(key: string, value: string, description: Option<string>, now: real)
      returns (r: Result<SettingView, HttpError>)
      modifies this
      ensures (table, r) == Update(old(table), key, value, description, now)
    {
      if key !in table {
        return Err(NotFound(key));
      }
      var current := table[key];
      var kept := if description.Some? && description.value != "" then description else current.description;
      table := table[key := Setting(value, kept, Some(now))];
      r := Ok(ViewOf(key, table[key]));
    }

    method CreateSetting(key: string, value: string, description: Option<string>, now: real)
      returns (r: Result<SettingView, HttpError>)
      modifies this
      ensures (table, r) == Create(old(table), key, value, description, now)
    {
      if key in table {
        return Err(AlreadyExists(key));
      }
      table := table[key := Setting(value, description, Some(now))];
      r := Ok(ViewOf(key, table[key]));
    }

    method DeleteSetting(key: string) returns (r: Result<string, HttpError>)
      modifies this
      ensures (table, r) == Delete(old(table), key)
    {
      if key !in table {
        return Err(NotFound(key));
      }
      table := table - {key};
      r := Ok("Setting '" + key + "' deleted successfully");
    }
  }
}
