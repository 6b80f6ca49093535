/**
 * The membership lookup: the first membership of a user at a level, joined
 * with its role and level document, with the role's default permissions
 * overlaid by the membership's custom ones and flattened into
 * action/subject pairs.
 */
module UserMembership {
  import opened Wrappers
  import opened JsValues
  import opened Records
  import opened ObjectIds
  import opened JsStrings

  // ---------------------------------------------------------------------
  // Permission objects.

  /** A plain object as its own enumerable properties, in key order, each key once. */
  type Entries = seq<(string, JsValue)>

  predicate DistinctKeys(o: Entries) {
    forall i, j :: 0 <= i < j < |o| ==> o[i].0 != o[j].0
  }

  predicate HasKey(o: Entries, key: string) {
    exists i :: 0 <= i < |o| && o[i].0 == key
  }

  /** The value stored under `key`, if any. */
  function Get(o: Entries, key: string): (v: Option<JsValue>)
    ensures v.Some? <==> HasKey(o, key)
    ensures v.Some? ==> exists i :: 0 <= i < |o| && o[i] == (key, v.value)
  {
    if o == [] then None
    else if o[0].0 == key then Some(o[0].1)
    else
      var rest := Get(o[1..], key);
      assert forall i :: 1 <= i < |o| ==> o[i] == o[1..][i - 1];
      assert HasKey(o[1..], key) ==> HasKey(o, key) by {
        if HasKey(o[1..], key) {
          var i :| 0 <= i < |o[1..]| && o[1..][i].0 == key;
          assert o[i + 1].0 == key;
        }
      }
      rest
  }

  lemma HasKeyCons(e: (string, JsValue), o: Entries, k: string)
    ensures HasKey([e] + o, k) <==> e.0 == k || HasKey(o, k)
  {
    assert ([e] + o)[0] == e;
    if HasKey(o, k) {
      var i :| 0 <= i < |o| && o[i].0 == k;
      assert ([e] + o)[i + 1] == o[i];
    }
    if HasKey([e] + o, k) && e.0 != k {
      var i :| 0 <= i < |[e] + o| && ([e] + o)[i].0 == k;
      assert o[i - 1] == ([e] + o)[i];
    }
  }

  /** `o` with `key` set to `v`: replaced in place, or added at the end. */
  function Put(o: Entries, key: string, v: JsValue): Entries {
    if o == [] then [(key, v)]
    else if o[0].0 == key then [(key, v)] + o[1..]
    else [o[0]] + Put(o[1..], key, v)
  }

  /** Setting a key changes that key only and keeps each key once. */
  lemma {:induction false} PutSpec(o: Entries, key: string, v: JsValue)
    requires DistinctKeys(o)
    ensures DistinctKeys(Put(o, key, v))
    ensures Get(Put(o, key, v), key) == Some(v)
    ensures forall k :: k != key ==> Get(Put(o, key, v), k) == Get(o, k)
    ensures forall k :: HasKey(Put(o, key, v), k) <==> HasKey(o, k) || k == key
  {
    if o == [] {
      assert Put(o, key, v)[0].0 == key;
    } else {
      var r := Put(o, key, v);
      var tail := if o[0].0 == key then o[1..] else Put(o[1..], key, v);
      assert r == [r[0]] + tail;
      assert !HasKey(o[1..], o[0].0) by {
        forall i | 0 <= i < |o[1..]| ensures o[1..][i].0 != o[0].0 {
          assert o[1..][i] == o[i + 1];
        }
      }
      if o[0].0 != key {
        PutSpec(o[1..], key, v);
      }
      forall k ensures HasKey(r, k) <==> HasKey(o, k) || k == key {
        HasKeyCons(r[0], tail, k);
        HasKeyCons(o[0], o[1..], k);
        assert [o[0]] + o[1..] == o;
      }
      assert !HasKey(tail, r[0].0);
      forall i, j | 0 <= i < j < |r| ensures r[i].0 != r[j].0 {
        if i == 0 {
          assert tail[j - 1] == r[j];
        } else {
          assert r[i] == tail[i - 1] && r[j] == tail[j - 1];
          if o[0].0 == key {
            assert o[i] == tail[i - 1] && o[j] == tail[j - 1];
          }
        }
      }
    }
  }

  /**
   * `{ ...base, ...over }`: every key of either, with the value of `over`
   * where it has the key.
   */
  function Spread(base: Entries, over: Entries): Entries
    decreases |over|
  {
    if over == [] then base
    else Put(Spread(base, over[..|over| - 1]), over[|over| - 1].0, over[|over| - 1].1)
  }

  lemma {:induction false} SpreadSpec(base: Entries, over: Entries)
    requires DistinctKeys(base) && DistinctKeys(over)
    ensures DistinctKeys(Spread(base, over))
    ensures forall k :: HasKey(Spread(base, over), k) <==> HasKey(base, k) || HasKey(over, k)
    ensures forall k :: Get(Spread(base, over), k) == if HasKey(over, k) then Get(over, k) else Get(base, k)
    decreases |over|
  {
    if over != [] {
      var last := over[|over| - 1];
      var init := over[..|over| - 1];
      LastEntry(over);
      SpreadSpec(base, init);
      PutSpec(Spread(base, init), last.0, last.1);
    }
  }

  /** An object is its entries before the last one, plus the last one. */
  lemma LastEntry(over: Entries)
    requires over != [] && DistinctKeys(over)
    ensures var last := over[|over| - 1]; var init := over[..|over| - 1];
      && DistinctKeys(init)
      && (forall k :: HasKey(over, k) <==> HasKey(init, k) || k == last.0)
      && (forall k :: Get(over, k) == if k == last.0 then Some(last.1) else Get(init, k))
  {
    var last := over[|over| - 1];
    var init := over[..|over| - 1];
    assert DistinctKeys(init);
    forall k ensures HasKey(over, k) <==> HasKey(init, k) || k == last.0 {
      if HasKey(over, k) {
        var i :| 0 <= i < |over| && over[i].0 == k;
        if i < |over| - 1 { assert init[i] == over[i]; }
      }
      if HasKey(init, k) {
        var i :| 0 <= i < |init| && init[i].0 == k;
        assert over[i] == init[i];
      }
    }
    forall k ensures Get(over, k) == if k == last.0 then Some(last.1) else Get(init, k) {
      GetSnoc(init, last, k);
      assert init + [last] == over;
    }
  }

  /** Looking up in an object extended by one entry at the end. */
  lemma {:induction false} GetSnoc(o: Entries, e: (string, JsValue), k: string)
    requires !HasKey(o, e.0) || k != e.0
    ensures Get(o + [e], k) == if k == e.0 && !HasKey(o, k) then Some(e.1) else Get(o, k)
  {
    if o != [] {
      assert (o + [e])[1..] == o[1..] + [e];
      if o[0].0 != k {
        if HasKey(o[1..], e.0) {
          var i :| 0 <= i < |o[1..]| && o[1..][i].0 == e.0;
          assert o[i + 1].0 == e.0;
        }
        GetSnoc(o[1..], e, k);
      }
    } else {
      assert o + [e] == [e];
    }
  }

  // ---------------------------------------------------------------------
  // Flattening into action/subject pairs.

  datatype Permission = Permission(action: string, subject: string)

  /**
   * `const [action, ...subjectParts] = key.split("_")` and the parts
   * joined back with `"_"`.
   */
  function PermissionOf(key: string): (p: Permission)
    ensures '_' !in p.action
    ensures '_' !in key ==> p == Permission(key, "")
    ensures '_' in key ==> key == p.action + "_" + p.subject
  {
    var parts := Split(key, '_');
    JoinSplit(key, '_');
    SplitCountsSeparators(key, '_');
    Permission(parts[0], Join(parts[1..], '_'))
  }

  /** The permission list: one entry per key whose value is truthy, in key order. */
  function Permissions(o: Entries): (ps: seq<Permission>)
    ensures |ps| <= |o|
    ensures forall i :: 0 <= i < |o| && Truthy(o[i].1) ==> PermissionOf(o[i].0) in ps
    ensures forall p :: p in ps ==> exists i :: 0 <= i < |o| && Truthy(o[i].1) && p == PermissionOf(o[i].0)
  {
    if o == [] then []
    else
      var rest := Permissions(o[1..]);
      assert forall i :: 1 <= i < |o| ==> o[i] == o[1..][i - 1];
      (if Truthy(o[0].1) then [PermissionOf(o[0].0)] else []) + rest
  }

  /** The number of keys with a truthy value. */
  function TruthyCount(o: Entries): nat {
    if o == [] then 0 else (if Truthy(o[0].1) then 1 else 0) + TruthyCount(o[1..])
  }

  /** Each truthy key produces exactly one entry and no other key produces any. */
  lemma {:induction false} OneEntryPerTruthyKey(o: Entries)
    ensures |Permissions(o)| == TruthyCount(o)
  {
    if o != [] {
      OneEntryPerTruthyKey(o[1..]);
    }
  }

  /**
   * Distinct keys can still flatten to the same pair: a trailing
   * underscore adds an empty subject, as a key without one has.
   */
  lemma TrailingUnderscoreCollides()
    ensures PermissionOf("read") == PermissionOf("read_") == Permission("read", "")
  {
    assert Split("read_", '_') == ["read", ""] by {
      assert Split("_", '_') == ["", ""] by {
        assert "_"[1..] == "";
      }
      SplitPiece("read", "_", '_');
      assert "read" + "_" == "read_";
      assert "read" + Split("_", '_')[0] == "read";
      assert Split("_", '_')[1..] == [""];
    }
  }

  // ---------------------------------------------------------------------
  // The aggregation.

  /** The level a membership applies to, and where its name is looked up. */
  datatype Level = ProjectLevel | ContractorLevel

  function LevelName(l: Level): string {
    match l
    case ProjectLevel => "project"
    case ContractorLevel => "contractor"
  }

  /** A stored membership. */
  datatype MembershipDoc = MembershipDoc(
    id: Id,
    clerkUserId: string,
    level: string,
    levelId: Option<Id>,
    roleId: Option<Id>,
    customPermissions: Option<Entries>)

  datatype Role = Role(role: Option<string>, defaultPermissions: Option<Entries>)

  /** A level document: a project carries `project_name`, a company `company_name`. */
  datatype LevelDoc = LevelDoc(projectName: Option<string>, companyName: Option<string>)

  datatype MembershipStore = MembershipStore(
    memberships: seq<MembershipDoc>,
    roles: map<Id, Role>,
    projects: map<Id, LevelDoc>,
    companies: map<Id, LevelDoc>)

  /** The projected membership plus the flattened permissions. */
  datatype ProcessedMembership = ProcessedMembership(
    id: Id,
    clerkUserId: string,
    levelId: Option<Id>,
    roleId: Option<Id>,
    role: Option<string>,
    defaultPermissions: Option<Entries>,
    customPermissions: Option<Entries>,
    levelName: Option<string>,
    permissions: seq<Permission>)

  /** The document a reference resolves to, if it resolves. */
  function Resolve<T>(m: map<Id, T>, ref: Option<Id>): Option<T> {
    if ref.Some? && IsObjectIdString(ref.value) && CanonicalId(ref.value) in m then Some(m[CanonicalId(ref.value)])
    else None
  }

  /** The index of the first membership of the user at the level. */
  function FirstMatch(ms: seq<MembershipDoc>, clerkUserId: string, level: Level): (r: Option<nat>)
    ensures r.None? <==> forall i :: 0 <= i < |ms| ==> !(ms[i].clerkUserId == clerkUserId && ms[i].level == LevelName(level))
    ensures r.Some? ==> r.value < |ms| && ms[r.value].clerkUserId == clerkUserId && ms[r.value].level == LevelName(level)
    ensures r.Some? ==> forall i :: 0 <= i < r.value ==> !(ms[i].clerkUserId == clerkUserId && ms[i].level == LevelName(level))
  {
    if ms == [] then None
    else if ms[0].clerkUserId == clerkUserId && ms[0].level == LevelName(level) then Some(0)
    else
      var rest := FirstMatch(ms[1..], clerkUserId, level);
      assert forall i :: 1 <= i < |ms| ==> ms[i] == ms[1..][i - 1];
      if rest.None? then None else Some(rest.value + 1)
  }

  /** `level_name`: the project's name at project level, the company's at contractor level. */
  function LevelNameOf(store: MembershipStore, level: Level, levelId: Option<Id>): (name: Option<string>)
    ensures !(levelId.Some? && IsObjectIdString(levelId.value)) ==> name.None?
    ensures level == ProjectLevel && name.Some? ==>
      && levelId.Some? && IsObjectIdString(levelId.value) && CanonicalId(levelId.value) in store.projects
      && store.projects[CanonicalId(levelId.value)].projectName == name
    ensures level == ContractorLevel && name.Some? ==>
      && levelId.Some? && IsObjectIdString(levelId.value) && CanonicalId(levelId.value) in store.companies
      && store.companies[CanonicalId(levelId.value)].companyName == name
    ensures levelId.Some? && IsObjectIdString(levelId.value) ==>
      var key := CanonicalId(levelId.value);
      && (level == ProjectLevel && key in store.projects ==> name == store.projects[key].projectName)
      && (level == ContractorLevel && key in store.companies ==> name == store.companies[key].companyName)
      && (level == ProjectLevel && key !in store.projects ==> name.None?)
      && (level == ContractorLevel && key !in store.companies ==> name.None?)
  {
    match level
    case ProjectLevel =>
      var d := Resolve(store.projects, levelId);
      if d.Some? then d.value.projectName else None
    case ContractorLevel =>
      var d := Resolve(store.companies, levelId);
      if d.Some? then d.value.companyName else None
  }

  /** `default_permissions || {}` overlaid by `custom_permissions || {}`. */
  function CombinedPermissions(defaults: Option<Entries>, custom: Option<Entries>): (r: Entries)
    requires defaults.Some? ==> DistinctKeys(defaults.value)
    requires custom.Some? ==> DistinctKeys(custom.value)
    ensures DistinctKeys(r)
    ensures forall k :: HasKey(r, k) <==>
      (defaults.Some? && HasKey(defaults.value, k)) || (custom.Some? && HasKey(custom.value, k))
    ensures forall k ::
              Get(r, k) == if custom.Some? && HasKey(custom.value, k) then Get(custom.value, k)
      else if defaults.Some? then Get(defaults.value, k)
      else None
  {
    SpreadSpec(defaults.GetOr([]), custom.GetOr([]));
    Spread(defaults.GetOr([]), custom.GetOr([]))
  }

  /** Stored permission objects have each key once. */
  predicate WellFormed(store: MembershipStore) {
    && (forall i :: 0 <= i < |store.memberships| && store.memberships[i].customPermissions.Some? ==>
          DistinctKeys(store.memberships[i].customPermissions.value))
    && (forall id :: id in store.roles && store.roles[id].defaultPermissions.Some? ==>
          DistinctKeys(store.roles[id].defaultPermissions.value))
  }

  /** `getUserMembership`. */
  function GetUserMembership(store: MembershipStore, clerkUserId: string, level: Level): (r: Option<ProcessedMembership>)
    requires WellFormed(store)
    ensures r.None? <==> forall i :: 0 <= i < |store.memberships| ==>
      !(store.memberships[i].clerkUserId == clerkUserId && store.memberships[i].level == LevelName(level))
    ensures r.Some? ==> r.value.clerkUserId == clerkUserId
    ensures r.Some? ==>
      var first := FirstMatch(store.memberships, clerkUserId, level).value;
      && KeepsFields(store.memberships[first], r.value)
      && r.value.levelName == LevelNameOf(store, level, store.memberships[first].levelId)
    ensures r.Some? ==>
      var role := Resolve(store.roles, store.memberships[FirstMatch(store.memberships, clerkUserId, level).value].roleId);
      && (role.None? ==> r.value.role.None? && r.value.defaultPermissions.None?)
      && (role.Some? ==> r.value.role == role.value.role && r.value.defaultPermissions == role.value.defaultPermissions)
  {
    var first := FirstMatch(store.memberships, clerkUserId, level);
    if first.None? then None
    else
    var m := store.memberships[first.value];
    var role := Resolve(store.roles, m.roleId);
    var defaults := if role.Some? then role.value.defaultPermissions else None;
    var combined := CombinedPermissions(defaults, m.customPermissions);
    Some(ProcessedMembership(
      m.id, m.clerkUserId, m.levelId, m.roleId,
      if role.Some? then role.value.role else None,
      defaults, m.customPermissions,
      LevelNameOf(store, level, m.levelId),
      Permissions(combined)))
  }

  /** The processed membership carries the stored one's fields unchanged. */
  predicate KeepsFields(m: MembershipDoc, p: ProcessedMembership) {
    && p.id == m.id && p.clerkUserId == m.clerkUserId
    && p.levelId == m.levelId && p.roleId == m.roleId
    && p.customPermissions == m.customPermissions
  }

  /**
   * The value a key has after the overlay: the custom one where the custom
   * object has the key, else the default one; a missing object has no keys.
   */
  function EffectiveValue(defaults: Option<Entries>, custom: Option<Entries>, key: string): Option<JsValue> {
    if custom.Some? && HasKey(custom.value, key) then Get(custom.value, key)
    else if defaults.Some? then Get(defaults.value, key)
    else None
  }

  /** The key's value after the overlay exists and is truthy. */
  predicate TruthyEffective(defaults: Option<Entries>, custom: Option<Entries>, key: string) {
    EffectiveValue(defaults, custom, key).Some? && Truthy(EffectiveValue(defaults, custom, key).value)
  }

  /**
   * The permissions of a processed membership are exactly the pairs of the
   * keys that are truthy once its custom permissions overlay its role's.
   */
  lemma MembershipPermissionsMeaning(store: MembershipStore, clerkUserId: string, level: Level, p: Permission)
    requires WellFormed(store)
    requires GetUserMembership(store, clerkUserId, level).Some?
    ensures var r := GetUserMembership(store, clerkUserId, level).value;
      p in r.permissions <==>
        exists key :: TruthyEffective(r.defaultPermissions, r.customPermissions, key) && p == PermissionOf(key)
  {
    var r := GetUserMembership(store, clerkUserId, level).value;
    if p in r.permissions {
      PermissionsComeFromTruthyKeys(r.defaultPermissions, r.customPermissions, p);
    }
    if exists key :: TruthyEffective(r.defaultPermissions, r.customPermissions, key) && p == PermissionOf(key) {
      var key :| TruthyEffective(r.defaultPermissions, r.customPermissions, key) && p == PermissionOf(key);
      TruthyKeysYieldPermissions(r.defaultPermissions, r.customPermissions, key);
    }
  }

  /** In an object with each key once, the lookup of an entry's key finds that entry. */
  lemma GetEntry(o: Entries, i: nat)
    requires DistinctKeys(o) && i < |o|
    ensures Get(o, o[i].0) == Some(o[i].1)
  {
    var j :| 0 <= j < |o| && o[j] == (o[i].0, Get(o, o[i].0).value);
  }

  /** Every key whose effective value is truthy yields its pair. */
  lemma TruthyKeysYieldPermissions(defaults: Option<Entries>, custom: Option<Entries>, key: string)
    requires defaults.Some? ==> DistinctKeys(defaults.value)
    requires custom.Some? ==> DistinctKeys(custom.value)
    requires EffectiveValue(defaults, custom, key).Some? && Truthy(EffectiveValue(defaults, custom, key).value)
    ensures PermissionOf(key) in Permissions(CombinedPermissions(defaults, custom))
  {
    var combined := CombinedPermissions(defaults, custom);
    var v := Get(combined, key);
    var i :| 0 <= i < |combined| && combined[i] == (key, v.value);
  }

  /** Every pair comes from a key whose effective value is truthy. */
  lemma PermissionsComeFromTruthyKeys(defaults: Option<Entries>, custom: Option<Entries>, p: Permission)
    requires defaults.Some? ==> DistinctKeys(defaults.value)
    requires custom.Some? ==> DistinctKeys(custom.value)
    requires p in Permissions(CombinedPermissions(defaults, custom))
    ensures exists key ::
              && EffectiveValue(defaults, custom, key).Some? && Truthy(EffectiveValue(defaults, custom, key).value)
              && p == PermissionOf(key)
  {
    var combined := CombinedPermissions(defaults, custom);
    var i :| 0 <= i < |combined| && Truthy(combined[i].1) && p == PermissionOf(combined[i].0);
    GetEntry(combined, i);
  }
}
