/** The browser's `localStorage` as app.js uses it, and the key helpers on top of it
    (`getAllProfiles`, `getActiveProfileId`, `pk`, `getData`/`setData`, the currency symbol).
    Values are kept as the objects that `JSON.stringify` wrote, so a `JSON.parse` of a stored
    value gives back exactly what was stored. */
module Storage {
  import opened Model
  import opened Strings

  /** A stored value: a plain string, the JSON profile list, or a JSON ledger. */
  datatype Value = Text(text: string) | ProfileList(profiles: seq<Profile>) | LedgerDoc(ledger: Ledger)

  const PROFILES_KEY: string := "SpendTrail-profiles"
  const ACTIVE_KEY: string := "SpendTrail-active-profile"
  /** The keys the single-profile versions of the app used. */
  const LEGACY_DATA_KEY: string := "SpendTrail-data"
  const LEGACY_CURRENCY_KEY: string := "SpendTrail-currency"
  const DATA: string := "data"
  const CURRENCY: string := "currency"
  /** The rupee sign, shown when no currency symbol is stored. */
  const DEFAULT_CURRENCY: string := "\U{20B9}"

  /** Every key that belongs to profile `id` starts with this. */
  function KeyPrefix(id: string): string {
    "SpendTrail-" + id + "-"
  }

  /** `SpendTrail-${id}-${base}` */
  function ScopedKey(id: string, base: string): (k: string)
    ensures StartsWith(k, KeyPrefix(id))
  {
    KeyPrefix(id) + base
  }

  /** The key-value store: keys are strings, values what the app wrote. */
  class LocalStorage {
    var items: map<string, Value>

    constructor (initial: map<string, Value>)
      ensures items == initial
    {
      items := initial;
    }

    method SetItem(key: string, value: Value)
      modifies this
      ensures items == old(items)[key := value]
    {
      items := items[key := value];
    }

    method RemoveItem(key: string)
      modifies this
      ensures items == old(items) - {key}
    {
      items := items - {key};
    }
  }

  /** `getAllProfiles`: the stored profile list, or `[]` when there is none. */
  function AllProfiles(items: map<string, Value>): seq<Profile> {
    if PROFILES_KEY in items && items[PROFILES_KEY].ProfileList? then items[PROFILES_KEY].profiles else []
  }

  /** `getActiveProfileId`: None stands for `null`. */
  function ActiveId(items: map<string, Value>): Option<string> {
    if ACTIVE_KEY in items && items[ACTIVE_KEY].Text? then Some(items[ACTIVE_KEY].text) else None
  }

  /** `pk(baseKey)`: the key of `baseKey` in the active profile. A missing active id is printed
      by the template literal as "null". */
  function Pk(items: map<string, Value>, base: string): string {
    ScopedKey(match ActiveId(items) case Some(id) => id case None => "null", base)
  }

  /** `getData`: the active profile's ledger, or an empty one when nothing is stored. */
  function Data(items: map<string, Value>): Ledger {
    var k := Pk(items, DATA);
    if k in items && items[k].LedgerDoc? then items[k].ledger else EmptyLedger
  }

  /** `getCurrencySymbol`: the stored symbol, or the rupee sign when it is missing or empty. */
  function CurrencySymbol(items: map<string, Value>): string {
    var k := Pk(items, CURRENCY);
    if k in items && items[k].Text? && items[k].text != "" then items[k].text else DEFAULT_CURRENCY
  }

  /** The registry's two keys and the two legacy keys are four different keys. */
  lemma ControlKeysDiffer()
    ensures PROFILES_KEY != ACTIVE_KEY
    ensures LEGACY_DATA_KEY != LEGACY_CURRENCY_KEY
    ensures LEGACY_DATA_KEY != PROFILES_KEY && LEGACY_DATA_KEY != ACTIVE_KEY
    ensures LEGACY_CURRENCY_KEY != PROFILES_KEY && LEGACY_CURRENCY_KEY != ACTIVE_KEY
  {
    assert PROFILES_KEY[11] == 'p' && ACTIVE_KEY[11] == 'a';
    assert LEGACY_DATA_KEY[11] == 'd' && LEGACY_CURRENCY_KEY[11] == 'c';
  }

  /** A profile's data and currency keys are never the registry's own keys, whatever the id. */
  lemma ScopedKeyIsNotControlKey(id: string, base: string)
    requires base == DATA || base == CURRENCY
    ensures ScopedKey(id, base) != ACTIVE_KEY && ScopedKey(id, base) != PROFILES_KEY
  {
    var k := ScopedKey(id, base);
    assert k[|k| - 1] == base[|base| - 1];
    assert ACTIVE_KEY[|ACTIVE_KEY| - 1] == 'e' && PROFILES_KEY[|PROFILES_KEY| - 1] == 's';
  }

  /** `setData`: stores `l` as the active profile's ledger. */
  method SetData(st: LocalStorage, l: Ledger)
    modifies st
    ensures st.items == old(st.items)[Pk(old(st.items), DATA) := LedgerDoc(l)]
    ensures Data(st.items) == l
  {
    var k := Pk(st.items, DATA);
    ScopedKeyIsNotControlKey(match ActiveId(st.items) case Some(id) => id case None => "null", DATA);
    st.SetItem(k, LedgerDoc(l));
  }

  /** `getData` after `setData(l)` gives back `l`, and the active profile stays the same. */
  lemma DataRoundTrip(items: map<string, Value>, l: Ledger)
    ensures var m := items[Pk(items, DATA) := LedgerDoc(l)];
      Data(m) == l && ActiveId(m) == ActiveId(items) && AllProfiles(m) == AllProfiles(items)
  {
    ScopedKeyIsNotControlKey(match ActiveId(items) case Some(id) => id case None => "null", DATA);
  }

  /** `setCurrencySymbol`: stores `symbol` under the active profile's currency key. */
  method SetCurrencySymbol(st: LocalStorage, symbol: string)
    modifies st
    ensures st.items == old(st.items)[Pk(old(st.items), CURRENCY) := Text(symbol)]
    ensures CurrencySymbol(st.items) == if symbol == "" then DEFAULT_CURRENCY else symbol
  {
    var k := Pk(st.items, CURRENCY);
    ScopedKeyIsNotControlKey(match ActiveId(st.items) case Some(id) => id case None => "null", CURRENCY);
    st.SetItem(k, Text(symbol));
  }
}
