/** The profile registry of app.js: at most five named profiles kept as one JSON list under
    `SpendTrail-profiles`, the active profile's id under `SpendTrail-active-profile`, and every key
    of a profile under the prefix `SpendTrail-${id}-`. The functions that change the registry
    (`initProfiles`, `createProfile`, `renameProfile`, `deleteProfile`, `switchProfile`) are
    methods on the store; the name rules of `createProfileFlow` and `renameProfileFlow` are
    `CheckName`. */
module Profiles {
  import opened Model
  import opened Strings
  import opened Storage

  const MAX_PROFILES: nat := 5
  const MAX_NAME_LENGTH: nat := 20
  const BOOTSTRAP_NAME: string := "Personal"
  const PROFILE_COLORS: seq<string> := ["#667EEA", "#4CAF50", "#F44336", "#FF9800", "#9C27B0"]

  // ---------------------------------------------------------------- ids and lookup

  /** The ids app.js hands out: "profile_" followed by the decimal digits of a clock reading. */
  predicate IsProfileId(id: string) {
    |id| > 8 && id[..8] == "profile_" && forall i :: 8 <= i < |id| ==> IsDigit(id[i])
  }

  /** `'profile_' + Date.now()`, for the clock reading `now`. */
  function ProfileId(now: nat): (id: string)
    ensures IsProfileId(id)
  {
    "profile_" + Decimal(now)
  }

  /** The position of the first profile with `id` (`profiles.find(p => p.id === id)`), or
      `|ps|` when there is none. */
  function IndexOfId(ps: seq<Profile>, id: string): (i: nat)
    ensures i <= |ps|
    ensures i < |ps| ==> ps[i].id == id
    ensures forall j :: 0 <= j < i ==> ps[j].id != id
  {
    if ps == [] then 0 else if ps[0].id == id then 0 else 1 + IndexOfId(ps[1..], id)
  }

  /** `getActiveProfile`: the first profile with the active id; when the active id is missing or
      names no profile, the first profile; None when there are no profiles. */
  function GetActiveProfile(items: map<string, Value>): (r: Option<Profile>)
    ensures var ps := AllProfiles(items);
      && (r.Some? <==> ps != [])
      && (r.Some? ==> r.value in ps)
      && (forall p :: p in ps && ActiveId(items) == Some(p.id) ==> r.Some? && r.value.id == p.id)
      && (forall id :: ActiveId(items) == Some(id) && IndexOfId(ps, id) < |ps| ==>
            r == Some(ps[IndexOfId(ps, id)]))
      && (ps != [] && (forall p :: p in ps ==> ActiveId(items) != Some(p.id)) ==> r == Some(ps[0]))
  {
    var ps := AllProfiles(items);
    var i := match ActiveId(items) case Some(id) => IndexOfId(ps, id) case None => |ps|;
    if i < |ps| then Some(ps[i]) else if ps != [] then Some(ps[0]) else None
  }

  /** `getProfileColor(index)`: the colours repeat every five profiles. */
  function GetProfileColor(index: nat): (c: string)
    ensures c in PROFILE_COLORS
  {
    PROFILE_COLORS[index % |PROFILE_COLORS|]
  }

  /** Within the profile cap every profile gets a colour of its own. */
  lemma ProfileColorsDistinct(i: nat, j: nat)
    requires i < j < MAX_PROFILES
    ensures GetProfileColor(i) != GetProfileColor(j)
  {
    assert i % 5 == i && j % 5 == j;
  }

  // ---------------------------------------------------------------- name rules

  /** A name as the flows store it: trimmed, not empty, at most 20 UTF-16 code units. */
  predicate WellFormedName(name: string) {
    name != [] && IsTrimmed(name) && Utf16Length(name) <= MAX_NAME_LENGTH
  }

  datatype NameCheck = NameOk | EmptyName | NameTooLong | DuplicateName

  /** The checks `createProfileFlow` (with `exclude` None) and `renameProfileFlow` (with the
      renamed profile's id) make, in their order: empty after trimming, longer than 20, or equal
      ignoring case to the name of a profile other than `exclude`. */
  function CheckName(ps: seq<Profile>, name: string, exclude: Option<string>): (r: NameCheck)
    ensures r == EmptyName <==> Trim(name) == []
    ensures r == NameTooLong <==> Trim(name) != [] && Utf16Length(Trim(name)) > MAX_NAME_LENGTH
    ensures r == NameOk <==>
      && WellFormedName(Trim(name))
      && forall p :: p in ps && exclude != Some(p.id) ==> Lower(p.name) != Lower(Trim(name))
  {
    var t := Trim(name);
    if t == [] then EmptyName
    else if Utf16Length(t) > MAX_NAME_LENGTH then NameTooLong
    else if exists p :: p in ps && exclude != Some(p.id) && Lower(p.name) == Lower(t) then DuplicateName
    else NameOk
  }

  // ---------------------------------------------------------------- registry invariant

  predicate DistinctIds(ps: seq<Profile>) {
    forall i, j :: 0 <= i < j < |ps| ==> ps[i].id != ps[j].id
  }

  /** No two profiles have names that are equal ignoring case. */
  predicate DistinctNames(ps: seq<Profile>) {
    forall i, j :: 0 <= i < j < |ps| ==> Lower(ps[i].name) != Lower(ps[j].name)
  }

  predicate ValidProfiles(ps: seq<Profile>) {
    && 1 <= |ps| <= MAX_PROFILES
    && (forall p :: p in ps ==> IsProfileId(p.id) && WellFormedName(p.name))
    && DistinctIds(ps)
    && DistinctNames(ps)
  }

  /** What the profile functions keep true once `initProfiles` has run: one to five profiles
      with distinct ids and names that pass the name rules, and an active id that names
      one of them. */
  predicate Valid(items: map<string, Value>) {
    && PROFILES_KEY in items && items[PROFILES_KEY].ProfileList?
    && ValidProfiles(items[PROFILES_KEY].profiles)
    && ActiveId(items).Some?
    && IndexOfId(AllProfiles(items), ActiveId(items).value) < |AllProfiles(items)|
  }

  /** With the registry valid, `getActiveProfile` never falls back: it returns the profile the
      active id names. */
  lemma ActiveProfileResolves(items: map<string, Value>)
    requires Valid(items)
    ensures GetActiveProfile(items).Some? && Some(GetActiveProfile(items).value.id) == ActiveId(items)
  {
  }

  lemma IndexOfIdSameIds(ps: seq<Profile>, qs: seq<Profile>, id: string)
    requires |ps| == |qs| && forall j :: 0 <= j < |ps| ==> ps[j].id == qs[j].id
    ensures IndexOfId(ps, id) == IndexOfId(qs, id)
  {
    var i, k := IndexOfId(ps, id), IndexOfId(qs, id);
    if i < |ps| { assert qs[i].id == id; }
    if k < |qs| { assert ps[k].id == id; }
  }

  lemma IndexOfIdAppend(ps: seq<Profile>, q: Profile, id: string)
    requires IndexOfId(ps, id) < |ps|
    ensures IndexOfId(ps + [q], id) == IndexOfId(ps, id)
  {
    var i := IndexOfId(ps, id);
    assert (ps + [q])[i] == ps[i];
    assert forall j :: 0 <= j < i ==> (ps + [q])[j] == ps[j];
  }

  // ---------------------------------------------------------------- key spaces

  /** Two different profile ids own disjoint sets of keys: no key of profile `b` starts with the
      prefix of profile `a`. The ids are digits after "profile_", so neither can continue with
      the '-' that ends the other's prefix. */
  lemma KeySpacesDisjoint(a: string, b: string, base: string)
    requires IsProfileId(a) && IsProfileId(b) && a != b
    ensures !StartsWith(ScopedKey(b, base), KeyPrefix(a))
  {
    var p, k := KeyPrefix(a), ScopedKey(b, base);
    if |p| <= |k| {
      // an index below |p| where the key and the prefix differ
      var j: nat;
      if |a| < |b| {
        j := 11 + |a|;
        assert p[j] == '-' && k[j] == b[|a|];
      } else if |b| < |a| {
        j := 11 + |b|;
        assert k[j] == '-' && p[j] == a[|b|];
      } else {
        var i :| 0 <= i < |a| && a[i] != b[i];
        j := 11 + i;
        assert p[j] == a[i] && k[j] == b[i];
      }
      assert k[..|p|][j] != p[j];
    }
  }

  /** The registry's own keys and the legacy keys belong to no profile. */
  lemma ControlKeysOutsideProfiles(id: string)
    requires IsProfileId(id)
    ensures !StartsWith(PROFILES_KEY, KeyPrefix(id)) && !StartsWith(ACTIVE_KEY, KeyPrefix(id))
    ensures !StartsWith(LEGACY_DATA_KEY, KeyPrefix(id)) && !StartsWith(LEGACY_CURRENCY_KEY, KeyPrefix(id))
  {
    var p := KeyPrefix(id);
    assert id[0] == id[..8][0] == 'p';
    assert p[11] == 'p';
    if |p| <= |ACTIVE_KEY| {
      assert ACTIVE_KEY[..|p|][11] != p[11];
    }
  }

  /** The store without every key that starts with `prefix`. */
  function DropPrefixed(m: map<string, Value>, prefix: string): (r: map<string, Value>)
    ensures forall k :: k in r <==> k in m && !StartsWith(k, prefix)
    ensures forall k :: k in r ==> r[k] == m[k]
  {
    map k | k in m && !StartsWith(k, prefix) :: m[k]
  }

  /** `profiles.filter(p => p.id !== id)` */
  function WithoutId(ps: seq<Profile>, id: string): (r: seq<Profile>)
    ensures forall p :: p in r <==> p in ps && p.id != id
    ensures (forall p :: p in ps ==> p.id != id) ==> r == ps
    ensures |r| <= |ps|
  {
    if ps == [] then []
    else
      assert ps == [ps[0]] + ps[1..];
      (if ps[0].id == id then [] else [ps[0]]) + WithoutId(ps[1..], id)
  }

  /** The head of a list with distinct ids has an id none of the rest has. */
  lemma HeadIdUnique(ps: seq<Profile>)
    requires ps != [] && DistinctIds(ps)
    ensures DistinctIds(ps[1..]) && forall p :: p in ps[1..] ==> p.id != ps[0].id
  {
    forall p | p in ps[1..] ensures p.id != ps[0].id {
      var j :| 0 <= j < |ps[1..]| && ps[1..][j] == p;
      assert ps[j + 1] == p;
    }
  }

  lemma HeadNameUnique(ps: seq<Profile>)
    requires ps != [] && DistinctNames(ps)
    ensures DistinctNames(ps[1..]) && forall p :: p in ps[1..] ==> Lower(p.name) != Lower(ps[0].name)
  {
    forall p | p in ps[1..] ensures Lower(p.name) != Lower(ps[0].name) {
      var j :| 0 <= j < |ps[1..]| && ps[1..][j] == p;
      assert ps[j + 1] == p;
    }
  }

  /** Filtering out one id keeps the ids distinct and, the ids being distinct, removes at most
      one profile. */
  lemma {:induction false} WithoutIdKeepsIds(ps: seq<Profile>, id: string)
    requires DistinctIds(ps)
    ensures DistinctIds(WithoutId(ps, id)) && |WithoutId(ps, id)| >= |ps| - 1
  {
    if ps != [] {
      HeadIdUnique(ps);
      WithoutIdKeepsIds(ps[1..], id);
      var t := WithoutId(ps[1..], id);
      if ps[0].id == id {
        assert t == ps[1..];
      } else {
        assert forall p :: p in t ==> p.id != ps[0].id;
        ConsKeepsIds(ps[0], t);
      }
    }
  }

  /** An id none of a list with distinct ids has can go in front of it. */
  lemma ConsKeepsIds(x: Profile, t: seq<Profile>)
    requires DistinctIds(t) && forall p :: p in t ==> p.id != x.id
    ensures DistinctIds([x] + t)
  {
    var r := [x] + t;
    forall i, j | 0 <= i < j < |r| ensures r[i].id != r[j].id {
      if i == 0 { assert r[j] in t; } else { assert r[i] == t[i - 1] && r[j] == t[j - 1]; }
    }
  }

  /** A name unlike every name of a list with distinct names can go in front of it. */
  lemma ConsKeepsNames(x: Profile, t: seq<Profile>)
    requires DistinctNames(t) && forall p :: p in t ==> Lower(p.name) != Lower(x.name)
    ensures DistinctNames([x] + t)
  {
    var r := [x] + t;
    forall i, j | 0 <= i < j < |r| ensures Lower(r[i].name) != Lower(r[j].name) {
      if i == 0 { assert r[j] in t; } else { assert r[i] == t[i - 1] && r[j] == t[j - 1]; }
    }
  }

  /** Filtering out one id keeps the names distinct. */
  lemma {:induction false} WithoutIdKeepsNames(ps: seq<Profile>, id: string)
    requires DistinctNames(ps)
    ensures DistinctNames(WithoutId(ps, id))
  {
    if ps != [] {
      HeadNameUnique(ps);
      WithoutIdKeepsNames(ps[1..], id);
      if ps[0].id != id {
        ConsKeepsNames(ps[0], WithoutId(ps[1..], id));
      }
    }
  }

  // ---------------------------------------------------------------- registry helpers

  /** `Valid` from its parts, for a store whose list and active id are known. */
  lemma ValidOf(m: map<string, Value>, ps: seq<Profile>, active: string)
    requires PROFILES_KEY in m && m[PROFILES_KEY] == ProfileList(ps) && ValidProfiles(ps)
    requires ACTIVE_KEY in m && m[ACTIVE_KEY] == Text(active) && IndexOfId(ps, active) < |ps|
    ensures Valid(m)
  {
  }

  /** Adding a profile whose id and name clash with none keeps the list valid. */
  lemma AppendKeepsValidProfiles(ps: seq<Profile>, q: Profile)
    requires ValidProfiles(ps) && |ps| < MAX_PROFILES
    requires IsProfileId(q.id) && WellFormedName(q.name)
    requires forall p :: p in ps ==> p.id != q.id && Lower(p.name) != Lower(q.name)
    ensures ValidProfiles(ps + [q])
  {
    var qs := ps + [q];
    assert forall p :: p in qs ==> p in ps || p == q;
    assert DistinctIds(qs) by {
      forall i, j | 0 <= i < j < |qs| ensures qs[i].id != qs[j].id {
        if j == |ps| { assert qs[i] in ps; }
      }
    }
    assert DistinctNames(qs) by {
      forall i, j | 0 <= i < j < |qs| ensures Lower(qs[i].name) != Lower(qs[j].name) {
        if j == |ps| { assert qs[i] in ps; }
      }
    }
  }

  /** Renaming profile `i` to a name no other profile has, ignoring case, keeps the list valid. */
  lemma RenameKeepsValidProfiles(ps: seq<Profile>, i: nat, t: string)
    requires ValidProfiles(ps) && i < |ps| && WellFormedName(t)
    requires forall p :: p in ps && p.id != ps[i].id ==> Lower(p.name) != Lower(t)
    ensures ValidProfiles(ps[i := ps[i].(name := t)])
  {
    var qs := ps[i := ps[i].(name := t)];
    forall p | p in qs ensures IsProfileId(p.id) && WellFormedName(p.name) {
      var j :| 0 <= j < |qs| && qs[j] == p;
      assert j != i ==> ps[j] in ps;
      assert ps[i] in ps;
    }
    assert DistinctNames(qs) by {
      forall a, b | 0 <= a < b < |qs| ensures Lower(qs[a].name) != Lower(qs[b].name) {
        if a == i { assert ps[b] in ps && ps[b].id != ps[i].id; }
        else if b == i { assert ps[a] in ps && ps[a].id != ps[i].id; }
      }
    }
  }

  // ---------------------------------------------------------------- initProfiles

  /** `getItem(key)` is truthy: the key is present and does not hold the empty string. */
  predicate Truthy(m: map<string, Value>, key: string) {
    key in m && m[key] != Text("")
  }

  /** Moves the value under `from` to `to` when it is truthy: `setItem(to, getItem(from));
      removeItem(from)`. */
  function Moved(m: map<string, Value>, from: string, to: string): map<string, Value> {
    if Truthy(m, from) then m[to := m[from]] - {from} else m
  }

  /** The store after the first run of `initProfiles`: one "Personal" profile, active, that
      takes over the single-profile ledger and currency. */
  function Bootstrapped(m: map<string, Value>, now: nat, createdAt: string): map<string, Value> {
    var id := ProfileId(now);
    var m1 := m[PROFILES_KEY := ProfileList([Profile(id, BOOTSTRAP_NAME, createdAt)])][ACTIVE_KEY := Text(id)];
    Moved(Moved(m1, LEGACY_DATA_KEY, ScopedKey(id, DATA)), LEGACY_CURRENCY_KEY, ScopedKey(id, CURRENCY))
  }

  /** `initProfiles`: on a store without a profile list (or with an empty string there),
      creates the "Personal" profile, makes it active and migrates the legacy keys into it; on
      any other store, does nothing. */
  method InitProfiles(st: LocalStorage, now: nat, createdAt: string)
    modifies st
    ensures Truthy(old(st.items), PROFILES_KEY) ==> st.items == old(st.items)
    ensures !Truthy(old(st.items), PROFILES_KEY) ==> st.items == Bootstrapped(old(st.items), now, createdAt)
  {
    if !Truthy(st.items, PROFILES_KEY) {
      var id := ProfileId(now);
      st.SetItem(PROFILES_KEY, ProfileList([Profile(id, BOOTSTRAP_NAME, createdAt)]));
      st.SetItem(ACTIVE_KEY, Text(id));
      if Truthy(st.items, LEGACY_DATA_KEY) {
        st.SetItem(ScopedKey(id, DATA), st.items[LEGACY_DATA_KEY]);
        st.RemoveItem(LEGACY_DATA_KEY);
      }
      if Truthy(st.items, LEGACY_CURRENCY_KEY) {
        st.SetItem(ScopedKey(id, CURRENCY), st.items[LEGACY_CURRENCY_KEY]);
        st.RemoveItem(LEGACY_CURRENCY_KEY);
      }
    }
  }

  /** The keys the bootstrap writes are six different keys. */
  lemma BootstrapKeysDistinct(id: string)
    requires IsProfileId(id)
    ensures var d, c := ScopedKey(id, DATA), ScopedKey(id, CURRENCY);
      && d != c && d != LEGACY_DATA_KEY && d != LEGACY_CURRENCY_KEY
      && c != LEGACY_DATA_KEY && c != LEGACY_CURRENCY_KEY
      && d != PROFILES_KEY && d != ACTIVE_KEY && c != PROFILES_KEY && c != ACTIVE_KEY
  {
    var d, c := ScopedKey(id, DATA), ScopedKey(id, CURRENCY);
    ScopedKeyIsNotControlKey(id, DATA);
    ScopedKeyIsNotControlKey(id, CURRENCY);
    ControlKeysOutsideProfiles(id);
    assert d[|d| - 1] == 'a' && c[|c| - 1] == 'y';
  }

  /** A move leaves every other key as it was. */
  lemma MovedKeeps(m: map<string, Value>, from: string, to: string, k: string)
    requires k != from && k != to
    ensures k in Moved(m, from, to) <==> k in m
    ensures k in m ==> Moved(m, from, to)[k] == m[k]
  {
  }

  /** "Personal" is a name the rules accept. */
  lemma BootstrapNameValid()
    ensures WellFormedName(BOOTSTRAP_NAME)
  {
    assert IsTrimmed(BOOTSTRAP_NAME) by {
      assert BOOTSTRAP_NAME[0] == 'P' && BOOTSTRAP_NAME[|BOOTSTRAP_NAME| - 1] == 'l';
    }
  }

  /** The first run leaves a valid registry whose only profile is the new "Personal" one. */
  lemma BootstrapValid(m: map<string, Value>, now: nat, createdAt: string)
    ensures var b := Bootstrapped(m, now, createdAt);
      && Valid(b)
      && AllProfiles(b) == [Profile(ProfileId(now), BOOTSTRAP_NAME, createdAt)]
      && ActiveId(b) == Some(ProfileId(now))
  {
    var id := ProfileId(now);
    var ps := [Profile(id, BOOTSTRAP_NAME, createdAt)];
    var m1 := m[PROFILES_KEY := ProfileList(ps)][ACTIVE_KEY := Text(id)];
    var m2 := Moved(m1, LEGACY_DATA_KEY, ScopedKey(id, DATA));
    var b := Moved(m2, LEGACY_CURRENCY_KEY, ScopedKey(id, CURRENCY));
    BootstrapKeysDistinct(id);
    MovedKeeps(m1, LEGACY_DATA_KEY, ScopedKey(id, DATA), PROFILES_KEY);
    MovedKeeps(m1, LEGACY_DATA_KEY, ScopedKey(id, DATA), ACTIVE_KEY);
    MovedKeeps(m2, LEGACY_CURRENCY_KEY, ScopedKey(id, CURRENCY), PROFILES_KEY);
    MovedKeeps(m2, LEGACY_CURRENCY_KEY, ScopedKey(id, CURRENCY), ACTIVE_KEY);
    BootstrapNameValid();
    assert ValidProfiles(ps);
    ValidOf(b, ps, id);
  }

  /** A move leaves the source key absent or empty, and a truthy value under the target key. */
  lemma MovedFrom(m: map<string, Value>, from: string, to: string)
    requires from != to
    ensures from in Moved(m, from, to) ==> Moved(m, from, to)[from] == Text("")
    ensures Truthy(m, from) ==> to in Moved(m, from, to) && Moved(m, from, to)[to] == m[from]
  {
  }

  /** The first run removes both legacy keys (an empty string stays where it was), and the
      ledger and the currency the single-profile app stored become the new active profile's. */
  lemma BootstrapMigrates(m: map<string, Value>, now: nat, createdAt: string)
    ensures var b := Bootstrapped(m, now, createdAt);
      && (LEGACY_DATA_KEY in b ==> b[LEGACY_DATA_KEY] == Text(""))
      && (LEGACY_CURRENCY_KEY in b ==> b[LEGACY_CURRENCY_KEY] == Text(""))
      && (LEGACY_DATA_KEY in m && m[LEGACY_DATA_KEY].LedgerDoc? ==> Data(b) == m[LEGACY_DATA_KEY].ledger)
      && (LEGACY_CURRENCY_KEY in m && m[LEGACY_CURRENCY_KEY].Text? && m[LEGACY_CURRENCY_KEY].text != "" ==>
            CurrencySymbol(b) == m[LEGACY_CURRENCY_KEY].text)
  {
    var id := ProfileId(now);
    var d, c := ScopedKey(id, DATA), ScopedKey(id, CURRENCY);
    var m1 := m[PROFILES_KEY := ProfileList([Profile(id, BOOTSTRAP_NAME, createdAt)])][ACTIVE_KEY := Text(id)];
    var m2 := Moved(m1, LEGACY_DATA_KEY, d);
    var b := Moved(m2, LEGACY_CURRENCY_KEY, c);
    BootstrapKeysDistinct(id);
    ControlKeysDiffer();
    BootstrapValid(m, now, createdAt);
    assert Pk(b, DATA) == d && Pk(b, CURRENCY) == c;
    MovedFrom(m1, LEGACY_DATA_KEY, d);
    MovedFrom(m2, LEGACY_CURRENCY_KEY, c);
    MovedKeeps(m1, LEGACY_DATA_KEY, d, LEGACY_CURRENCY_KEY);
    MovedKeeps(m2, LEGACY_CURRENCY_KEY, c, LEGACY_DATA_KEY);
    MovedKeeps(m2, LEGACY_CURRENCY_KEY, c, d);
  }

  // ---------------------------------------------------------------- createProfile

  /** `createProfile(name)`: refuses (null) when five profiles exist; otherwise appends a profile
      with the trimmed name and a clock-based id, and returns the id. */
  method CreateProfile(st: LocalStorage, name: string, now: nat, createdAt: string) returns (id: Option<string>)
    modifies st
    ensures var ps := AllProfiles(old(st.items));
      if |ps| >= MAX_PROFILES then id == None && st.items == old(st.items)
      else
        && id == Some(ProfileId(now))
        && st.items == old(st.items)[PROFILES_KEY := ProfileList(ps + [Profile(ProfileId(now), Trim(name), createdAt)])]
  {
    var profiles := AllProfiles(st.items);
    if |profiles| >= MAX_PROFILES {
      return None;
    }
    var newId := ProfileId(now);
    profiles := profiles + [Profile(newId, Trim(name), createdAt)];
    st.SetItem(PROFILES_KEY, ProfileList(profiles));
    return Some(newId);
  }

  /** The clock reading gives an id no profile has yet. */
  predicate FreshId(items: map<string, Value>, now: nat) {
    forall p :: p in AllProfiles(items) ==> p.id != ProfileId(now)
  }

  /** A profile created through the name rules, with a fresh id, keeps the registry valid and
      leaves the active profile as it was. */
  lemma CreateKeepsValid(m: map<string, Value>, name: string, now: nat, createdAt: string)
    requires Valid(m) && FreshId(m, now) && |AllProfiles(m)| < MAX_PROFILES
    requires CheckName(AllProfiles(m), name, None) == NameOk
    ensures var q := Profile(ProfileId(now), Trim(name), createdAt);
      var m' := m[PROFILES_KEY := ProfileList(AllProfiles(m) + [q])];
      Valid(m') && ActiveId(m') == ActiveId(m)
  {
    var ps := AllProfiles(m);
    var q := Profile(ProfileId(now), Trim(name), createdAt);
    var m' := m[PROFILES_KEY := ProfileList(ps + [q])];
    AppendKeepsValidProfiles(ps, q);
    var active := ActiveId(m).value;
    IndexOfIdAppend(ps, q, active);
    ValidOf(m', ps + [q], active);
  }

  datatype CreateOutcome = LimitReached | Cancelled | Rejected(check: NameCheck) | Created(id: string)

  /** `createProfileFlow`: the limit check, the name prompt (`answer` is None when it is
      cancelled), the name rules, then `createProfile`. */
  method CreateProfileFlow(st: LocalStorage, answer: Option<string>, now: nat, createdAt: string)
    returns (outcome: CreateOutcome)
    modifies st
    ensures var ps := AllProfiles(old(st.items));
      && (outcome == LimitReached <==> |ps| >= MAX_PROFILES)
      && (outcome == Cancelled <==> |ps| < MAX_PROFILES && answer.None?)
      && (outcome.Rejected? <==> |ps| < MAX_PROFILES && answer.Some? && CheckName(ps, answer.value, None) != NameOk)
      && (outcome.Rejected? ==> outcome.check == CheckName(ps, answer.value, None))
      && (!outcome.Created? ==> st.items == old(st.items))
      && (outcome.Created? ==>
            && answer.Some?
            && outcome.id == ProfileId(now)
            && st.items == old(st.items)[PROFILES_KEY := ProfileList(ps + [Profile(ProfileId(now), Trim(answer.value), createdAt)])])
    ensures old(Valid(st.items)) && old(FreshId(st.items, now)) ==> Valid(st.items)
  {
    ghost var m := st.items;
    var profiles := AllProfiles(st.items);
    if |profiles| >= MAX_PROFILES {
      return LimitReached;
    }
    if answer.None? {
      return Cancelled;
    }
    var name := answer.value;
    var check := CheckName(profiles, name, None);
    if check != NameOk {
      return Rejected(check);
    }
    var id := CreateProfile(st, name, now, createdAt);
    outcome := Created(id.value);
    if Valid(m) && FreshId(m, now) {
      CreateKeepsValid(m, name, now, createdAt);
    }
  }

  // ---------------------------------------------------------------- renameProfile

  /** `renameProfile(id, newName)`: gives the first profile with `id` the trimmed name; with no
      such profile, writes nothing. */
  method RenameProfile(st: LocalStorage, id: string, newName: string)
    modifies st
    ensures var ps := AllProfiles(old(st.items)); var i := IndexOfId(ps, id);
      if i == |ps| then st.items == old(st.items)
      else st.items == old(st.items)[PROFILES_KEY := ProfileList(ps[i := ps[i].(name := Trim(newName))])]
  {
    var profiles := AllProfiles(st.items);
    var i := IndexOfId(profiles, id);
    if i == |profiles| {
      return;
    }
    profiles := profiles[i := profiles[i].(name := Trim(newName))];
    st.SetItem(PROFILES_KEY, ProfileList(profiles));
  }

  /** A renamed list that passed the name rules is still valid, and every id is found where it
      was before. */
  lemma RenamedList(ps: seq<Profile>, i: nat, t: string, active: string)
    requires ValidProfiles(ps) && i < |ps| && WellFormedName(t)
    requires forall p :: p in ps && p.id != ps[i].id ==> Lower(p.name) != Lower(t)
    ensures ValidProfiles(ps[i := ps[i].(name := t)])
    ensures IndexOfId(ps[i := ps[i].(name := t)], active) == IndexOfId(ps, active)
  {
    var qs := ps[i := ps[i].(name := t)];
    RenameKeepsValidProfiles(ps, i, t);
    assert forall j :: 0 <= j < |ps| ==> ps[j].id == qs[j].id;
    IndexOfIdSameIds(ps, qs, active);
  }

  /** Storing a valid list that still holds the active profile keeps the registry valid. */
  lemma StoreListValid(m: map<string, Value>, qs: seq<Profile>, active: string)
    requires Valid(m) && ActiveId(m) == Some(active) && ValidProfiles(qs)
    requires IndexOfId(qs, active) < |qs|
    ensures Valid(m[PROFILES_KEY := ProfileList(qs)])
    ensures ActiveId(m[PROFILES_KEY := ProfileList(qs)]) == ActiveId(m)
  {
    var m' := m[PROFILES_KEY := ProfileList(qs)];
    ControlKeysDiffer();
    ValidOf(m', qs, active);
  }

  /** A rename that passed the name rules keeps the registry valid and the active profile. */
  lemma RenameKeepsValid(m: map<string, Value>, id: string, newName: string)
    requires Valid(m) && CheckName(AllProfiles(m), newName, Some(id)) == NameOk
    requires IndexOfId(AllProfiles(m), id) < |AllProfiles(m)|
    ensures var ps := AllProfiles(m); var i := IndexOfId(ps, id);
      var m' := m[PROFILES_KEY := ProfileList(ps[i := ps[i].(name := Trim(newName))])];
      Valid(m') && ActiveId(m') == ActiveId(m)
  {
    var ps := AllProfiles(m);
    var i := IndexOfId(ps, id);
    var t := Trim(newName);
    var active := ActiveId(m).value;
    RenamedList(ps, i, t, active);
    StoreListValid(m, ps[i := ps[i].(name := t)], active);
  }

  /** `renameProfileFlow`: the prompt (`answer` is None when it is cancelled, and then `check`
      is None too), the name rules with the renamed profile left out of the duplicate check, then
      `renameProfile`. Like the source, it reports success for an id that names no profile. */
  method RenameProfileFlow(st: LocalStorage, id: string, answer: Option<string>) returns (check: Option<NameCheck>)
    modifies st
    ensures answer.None? ==> check == None && st.items == old(st.items)
    ensures answer.Some? ==> var ps := AllProfiles(old(st.items)); var i := IndexOfId(ps, id);
      && check == Some(CheckName(ps, answer.value, Some(id)))
      && (check != Some(NameOk) || i == |ps| ==> st.items == old(st.items))
      && (check == Some(NameOk) && i < |ps| ==>
            st.items == old(st.items)[PROFILES_KEY := ProfileList(ps[i := ps[i].(name := Trim(answer.value))])])
    ensures old(Valid(st.items)) ==> Valid(st.items)
  {
    if answer.None? {
      return None;
    }
    var newName := answer.value;
    ghost var m := st.items;
    var profiles := AllProfiles(st.items);
    var result := CheckName(profiles, newName, Some(id));
    check := Some(result);
    if result != NameOk {
      return;
    }
    RenameProfile(st, id, newName);
    if Valid(m) && IndexOfId(profiles, id) < |profiles| {
      RenameKeepsValid(m, id, newName);
    }
  }

  // ---------------------------------------------------------------- deleteProfile

  /** How `deleteProfile` ends: refused for the last profile, done, or a TypeError on
      `updated[0].id` after the keys and the list were already written (possible only when every
      profile carries the deleted id). */
  datatype DeleteOutcome = LastProfile | Deleted | ThrewAfterWrites

  /** The store `deleteProfile(id)` writes before it looks at the active id: every key of the
      profile removed and the list without it. */
  function AfterDelete(m: map<string, Value>, id: string): map<string, Value> {
    DropPrefixed(m, KeyPrefix(id))[PROFILES_KEY := ProfileList(WithoutId(AllProfiles(m), id))]
  }

  /** `deleteProfile(id)`: refuses when at most one profile exists; otherwise removes every key
      that starts with `SpendTrail-${id}-`, drops the profiles with that id from the list, and,
      when the active id named it, makes the first remaining profile active. */
  method DeleteProfile(st: LocalStorage, id: string) returns (outcome: DeleteOutcome)
    modifies st
    ensures var ps := AllProfiles(old(st.items));
      |ps| <= 1 ==> outcome == LastProfile && st.items == old(st.items)
    ensures var ps := AllProfiles(old(st.items));
      var rest := WithoutId(ps, id);
      var m := AfterDelete(old(st.items), id);
      |ps| > 1 ==>
        if ActiveId(m) == Some(id) then
          if rest == [] then outcome == ThrewAfterWrites && st.items == m
          else outcome == Deleted && st.items == m[ACTIVE_KEY := Text(rest[0].id)]
        else outcome == Deleted && st.items == m
  {
    ghost var m0 := st.items;
    var profiles := AllProfiles(st.items);
    if |profiles| <= 1 {
      return LastProfile;
    }
    var prefix := KeyPrefix(id);
    var keys := st.items.Keys;
    while keys != {}
      invariant keys <= m0.Keys
      invariant st.items == map k | k in m0 && (k in keys || !StartsWith(k, prefix)) :: m0[k]
      decreases keys
    {
      var k :| k in keys;
      if StartsWith(k, prefix) {
        st.RemoveItem(k);
      }
      keys := keys - {k};
    }
    assert st.items == DropPrefixed(m0, prefix);
    var updated := WithoutId(profiles, id);
    st.SetItem(PROFILES_KEY, ProfileList(updated));
    outcome := Deleted;
    if ActiveId(st.items) == Some(id) {
      if updated == [] {
        return ThrewAfterWrites;
      }
      st.SetItem(ACTIVE_KEY, Text(updated[0].id));
    }
  }

  /** What the writes of `deleteProfile` leave for a profile id: the filtered list, the active
      active id untouched, and of the other keys exactly those outside the profile's prefix. */
  lemma AfterDeleteShape(m0: map<string, Value>, id: string)
    requires IsProfileId(id)
    ensures var m := AfterDelete(m0, id);
      && AllProfiles(m) == WithoutId(AllProfiles(m0), id)
      && (ACTIVE_KEY in m <==> ACTIVE_KEY in m0)
      && (ACTIVE_KEY in m ==> m[ACTIVE_KEY] == m0[ACTIVE_KEY])
      && ActiveId(m) == ActiveId(m0)
      && (forall k :: k != PROFILES_KEY ==> (k in m <==> k in m0 && !StartsWith(k, KeyPrefix(id))))
  {
    ControlKeysOutsideProfiles(id);
  }

  /** With more than one profile and distinct ids, the filtered list of an existing id is a
      valid list. */
  lemma WithoutIdValid(ps: seq<Profile>, id: string)
    requires ValidProfiles(ps) && |ps| > 1
    ensures ValidProfiles(WithoutId(ps, id))
  {
    WithoutIdKeepsIds(ps, id);
    WithoutIdKeepsNames(ps, id);
    assert forall p :: p in WithoutId(ps, id) ==> p in ps;
  }

  /** On a valid registry with more than one profile, deleting an existing profile keeps the
      registry valid: the list loses exactly that profile, the active id moves to the first
      remaining profile only when it named the deleted one, and of the other keys exactly those
      of the deleted profile are gone. */
  lemma DeleteKeepsValid(m0: map<string, Value>, id: string)
    requires Valid(m0) && |AllProfiles(m0)| > 1 && IndexOfId(AllProfiles(m0), id) < |AllProfiles(m0)|
    ensures var rest := WithoutId(AllProfiles(m0), id);
      var m := AfterDelete(m0, id);
      && rest != []
      && AllProfiles(m) == rest
      && ActiveId(m) == ActiveId(m0)
      && (ActiveId(m0) == Some(id) ==> Valid(m[ACTIVE_KEY := Text(rest[0].id)]))
      && (ActiveId(m0) != Some(id) ==> Valid(m))
      && (forall k :: k != PROFILES_KEY ==> (k in m <==> k in m0 && !StartsWith(k, KeyPrefix(id))))
  {
    var ps := AllProfiles(m0);
    var rest := WithoutId(ps, id);
    var m := AfterDelete(m0, id);
    assert ps[IndexOfId(ps, id)] in ps;
    AfterDeleteShape(m0, id);
    WithoutIdValid(ps, id);
    var active := ActiveId(m0).value;
    if active != id {
      var p := ps[IndexOfId(ps, active)];
      assert p in ps && p in rest;
      ValidOf(m, rest, active);
    } else {
      assert rest[0] in rest;
      ValidOf(m[ACTIVE_KEY := Text(rest[0].id)], rest, rest[0].id);
    }
  }

  // ---------------------------------------------------------------- switchProfile

  /** `switchProfile(id)` without the page reload: sets the active id to `id`. */
  method SwitchProfile(st: LocalStorage, id: string)
    modifies st
    ensures st.items == old(st.items)[ACTIVE_KEY := Text(id)]
    ensures old(Valid(st.items)) && IndexOfId(old(AllProfiles(st.items)), id) < old(|AllProfiles(st.items)|) ==>
      Valid(st.items) && GetActiveProfile(st.items).value.id == id
  {
    st.SetItem(ACTIVE_KEY, Text(id));
  }
}
