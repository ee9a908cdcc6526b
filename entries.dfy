/** The ledger mutations of app.js: the add form's submit handler, `saveEdit`, `deleteEntry`,
    `deleteAllData`, and the backup and restore of a profile's ledger. Each one reads the active
    profile's ledger with `getData`, changes it, and writes it back with `setData`. Form fields
    arrive as strings; an amount field is None when it is empty. */
module Entries {
  import opened Model
  import opened Strings
  import opened Storage
  import Profiles

  // ---------------------------------------------------------------- add

  /** The submit handler of the add form: the category and the note are trimmed; an empty
      amount, category or date stops it; otherwise the entry, stamped with the clock reading
      `now`, goes at the end of the sequence of `kind`. */
  method AddEntry(st: LocalStorage, kind: Kind, amount: Option<int>, category: string, date: string,
                  note: string, now: int) returns (added: bool)
    modifies st
    ensures added <==> amount.Some? && Trim(category) != "" && date != ""
    ensures !added ==> st.items == old(st.items)
    ensures added ==>
      var l := Data(old(st.items));
      var r := Record(amount.value, Trim(category), date, Trim(note), Some(now));
      st.items == old(st.items)[Pk(old(st.items), DATA) := LedgerDoc(l.With(kind, l.Of(kind) + [r]))]
  {
    var cat := Trim(category);
    var trimmedNote := Trim(note);
    if amount.None? || cat == "" || date == "" {
      return false;
    }
    var data := Data(st.items);
    var entry := Record(amount.value, cat, date, trimmedNote, Some(now));
    data := data.With(kind, data.Of(kind) + [entry]);
    SetData(st, data);
    return true;
  }

  /** Adding an entry raises the total of its kind by its amount and leaves the other kind's
      entries as they were. */
  lemma AddConservesTotals(l: Ledger, kind: Kind, r: Record)
    ensures var l' := l.With(kind, l.Of(kind) + [r]);
      && Total(l'.Of(kind)) == Total(l.Of(kind)) + r.amount
      && l'.Of(kind.Other()) == l.Of(kind.Other())
  {
    TotalAppend(l.Of(kind), [r]);
    assert [r][..0] == [];
  }

  // ---------------------------------------------------------------- edit

  datatype EditOutcome = MissingFields | IndexOutOfRange | Updated

  /** The timestamp an edited entry keeps: its own, unless that is missing or 0
      (`timestamp || Date.now()`). */
  function KeptTimestamp(old_ts: Option<int>, now: int): (ts: int)
    ensures old_ts.Some? && old_ts.value != 0 ==> ts == old_ts.value
    ensures old_ts.None? || old_ts == Some(0) ==> ts == now
  {
    match old_ts
    case Some(t) => if t != 0 then t else now
    case None => now
  }

  /** `saveEdit(dataType, index)`: with an empty field it writes nothing; with no entry at
      `index` the source throws before writing; otherwise entry `index` of `kind` becomes the
      form's values with the entry's own timestamp, and nothing else changes. */
  method SaveEdit(st: LocalStorage, kind: Kind, index: int, amount: Option<int>, category: string,
                  date: string, note: string, now: int) returns (outcome: EditOutcome)
    modifies st
    ensures var s := Data(old(st.items)).Of(kind);
      && (outcome == MissingFields <==> amount.None? || Trim(category) == "" || date == "")
      && (outcome == IndexOutOfRange <==> outcome != MissingFields && !(0 <= index < |s|))
    ensures outcome != Updated ==> st.items == old(st.items)
    ensures outcome == Updated ==>
      var l := Data(old(st.items));
      var s := l.Of(kind);
      && 0 <= index < |s|
      && Data(st.items).Of(kind) ==
           s[index := Record(amount.value, Trim(category), date, Trim(note), Some(KeptTimestamp(s[index].timestamp, now)))]
      && Data(st.items).Of(kind.Other()) == l.Of(kind.Other())
      && st.items == old(st.items)[Pk(old(st.items), DATA) := LedgerDoc(Data(st.items))]
  {
    var data := Data(st.items);
    var cat := Trim(category);
    var trimmedNote := Trim(note);
    if amount.None? || cat == "" || date == "" {
      return MissingFields;
    }
    var s := data.Of(kind);
    if !(0 <= index < |s|) {
      return IndexOutOfRange;
    }
    var ts := KeptTimestamp(s[index].timestamp, now);
    data := data.With(kind, s[index := Record(amount.value, cat, date, trimmedNote, Some(ts))]);
    SetData(st, data);
    return Updated;
  }

  /** Replacing one entry changes the total by the difference of the two amounts. */
  lemma {:induction false} TotalReplace(s: seq<Record>, i: nat, r: Record)
    requires i < |s|
    ensures Total(s[i := r]) == Total(s) - s[i].amount + r.amount
  {
    var t := s[i := r];
    assert s == s[..i] + [s[i]] + s[i + 1..];
    assert t == s[..i] + [r] + s[i + 1..];
    TotalAppend(s[..i] + [s[i]], s[i + 1..]);
    TotalAppend(s[..i], [s[i]]);
    TotalAppend(s[..i] + [r], s[i + 1..]);
    TotalAppend(s[..i], [r]);
    assert [r][..0] == [] && [s[i]][..0] == [];
  }

  // ---------------------------------------------------------------- delete

  /** Where `splice(start, 1)` removes: a negative start counts from the end, and the result is
      clamped to the sequence. */
  function SpliceStart(len: nat, start: int): (k: nat)
    ensures k <= len
    ensures 0 <= start <= len ==> k == start
    ensures start > len ==> k == len
    ensures start < 0 ==> k == if len + start < 0 then 0 else len + start
  {
    if start < 0 then (if len + start < 0 then 0 else len + start)
    else if start > len then len
    else start
  }

  /** `s.splice(start, 1)` on a copy: the element at the clamped start is removed and the later
      elements move down by one; past the end, nothing is removed. */
  function SpliceOne<T>(s: seq<T>, start: int): (r: seq<T>)
    ensures var k := SpliceStart(|s|, start);
      && |r| == (if k < |s| then |s| - 1 else |s|)
      && (forall j :: 0 <= j < k && j < |r| ==> r[j] == s[j])
      && (forall j :: k <= j < |r| ==> r[j] == s[j + 1])
      && (k < |s| ==> multiset(r) + multiset{s[k]} == multiset(s))
      && (k == |s| ==> r == s)
  {
    var k := SpliceStart(|s|, start);
    if k < |s| then
      assert s == s[..k] + [s[k]] + s[k + 1..];
      s[..k] + s[k + 1..]
    else s
  }

  /** Deleting an entry lowers the total by its amount. */
  lemma {:induction false} TotalSplice(s: seq<Record>, start: int)
    ensures var k := SpliceStart(|s|, start);
      Total(SpliceOne(s, start)) == Total(s) - (if k < |s| then s[k].amount else 0)
  {
    var k := SpliceStart(|s|, start);
    if k < |s| {
      var a, b := s[..k], s[k + 1..];
      assert SpliceOne(s, start) == a + b;
      assert s == (a + [s[k]]) + b;
      TotalAppend(a + [s[k]], b);
      TotalAppend(a, [s[k]]);
      TotalAppend(a, b);
      assert [s[k]][..0] == [];
    }
  }

  /** `deleteEntry(dataType, index)`: when the confirmation is declined, nothing; otherwise
      splices entry `index` out of the sequence of `kind` and saves the ledger, even when nothing
      was removed. */
  method DeleteEntry(st: LocalStorage, kind: Kind, index: int, confirmed: bool)
    modifies st
    ensures !confirmed ==> st.items == old(st.items)
    ensures confirmed ==> var l := Data(old(st.items));
      && Data(st.items).Of(kind) == SpliceOne(l.Of(kind), index)
      && Data(st.items).Of(kind.Other()) == l.Of(kind.Other())
      && st.items == old(st.items)[Pk(old(st.items), DATA) := LedgerDoc(Data(st.items))]
  {
    if !confirmed {
      return;
    }
    var data := Data(st.items);
    data := data.With(kind, SpliceOne(data.Of(kind), index));
    SetData(st, data);
  }

  /** `deleteAllData`: unless both confirmations are accepted, nothing; otherwise removes the
      active profile's ledger key, so the profile reads as empty; the registry is untouched. */
  method DeleteAllData(st: LocalStorage, confirmed: bool, reconfirmed: bool)
    modifies st
    ensures !(confirmed && reconfirmed) ==> st.items == old(st.items)
    ensures confirmed && reconfirmed ==>
      && st.items == old(st.items) - {Pk(old(st.items), DATA)}
      && Data(st.items) == EmptyLedger
    ensures ActiveId(st.items) == old(ActiveId(st.items)) && AllProfiles(st.items) == old(AllProfiles(st.items))
  {
    if !(confirmed && reconfirmed) {
      return;
    }
    var k := Pk(st.items, DATA);
    ScopedKeyIsNotControlKey(match ActiveId(st.items) case Some(id) => id case None => "null", DATA);
    st.RemoveItem(k);
  }

  // ---------------------------------------------------------------- backup

  /** A backup payload as `JSON.parse` gives it back: the two ledger sequences, each of which may
      be missing from a foreign file, and the descriptive fields the app adds. */
  datatype Backup = Backup(
    income: Option<seq<Record>>,
    expenses: Option<seq<Record>>,
    backupDate: Option<string>,
    version: Option<string>,
    encrypted: bool,
    profileName: Option<string>)

  const BACKUP_VERSION: string := "3.9"
  const DEFAULT_PROFILE_NAME: string := "Personal"

  /** The object `backupData` (with `encrypted` false) and `encryptedBackup` (with `encrypted`
      true) serialise: the active ledger, the date, the version and the active profile's name,
      "Personal" when there is no profile or its name is empty. */
  function MakeBackup(items: map<string, Value>, backupDate: string, encrypted: bool): (b: Backup)
    ensures b.income == Some(Data(items).income) && b.expenses == Some(Data(items).expenses)
    ensures b.version == Some(BACKUP_VERSION) && b.encrypted == encrypted
    ensures var p := Profiles.GetActiveProfile(items);
      b.profileName == Some(if p.Some? && p.value.name != "" then p.value.name else DEFAULT_PROFILE_NAME)
  {
    var l := Data(items);
    var p := Profiles.GetActiveProfile(items);
    var name := if p.Some? && p.value.name != "" then p.value.name else DEFAULT_PROFILE_NAME;
    Backup(Some(l.income), Some(l.expenses), Some(backupDate), Some(BACKUP_VERSION), encrypted, Some(name))
  }

  datatype PasswordCheck = PasswordCancelled | TooShort | NoMatch | PasswordOk

  /** The password prompts of `encryptedBackup`: None is a cancelled prompt. An empty or
      cancelled password stops silently; fewer than 8 UTF-16 units is "Too short"; a
      confirmation that differs (or was cancelled) is "No match". */
  function CheckBackupPassword(password: Option<string>, confirmation: Option<string>): (r: PasswordCheck)
    ensures r == PasswordCancelled <==> password.None? || password == Some("")
    ensures r == PasswordOk <==>
      password.Some? && Utf16Length(password.value) >= 8 && confirmation == password
    ensures r == TooShort <==>
      password.Some? && password.value != "" && Utf16Length(password.value) < 8
  {
    match password
    case None => PasswordCancelled
    case Some(pw) =>
      if pw == "" then PasswordCancelled
      else if Utf16Length(pw) < 8 then TooShort
      else if confirmation != Some(pw) then NoMatch
      else PasswordOk
  }

  // ---------------------------------------------------------------- restore

  /** What `AES.decrypt(...).toString(Utf8)` produced: nothing (a wrong password), or a text
      whose `JSON.parse` either gave a payload or failed. */
  datatype Decrypted = NothingDecrypted | DecryptedText(parsed: Option<Backup>)

  /** The chosen file: a plain one, parsed or not, or one whose name contains ".encrypted",
      with the password typed at the prompt (None when cancelled) and what it decrypted to. */
  datatype Upload =
    | PlainUpload(parsed: Option<Backup>)
    | EncryptedUpload(password: Option<string>, decrypted: Decrypted)

  datatype RestoreError = NoPassword | WrongPassword | Unreadable | InvalidBackup

  datatype Result<T, E> = Ok(value: T) | Err(error: E)

  /** The checks of `restoreData` before its confirmation: a cancelled or empty password stops;
      an empty decryption is "Wrong password"; a parse failure is "Error reading backup"; a
      payload without `income` or `expenses` is "Invalid backup". A valid payload gives the
      ledger made of its two sequences and nothing else. */
  function ReadBackup(u: Upload): (r: Result<Ledger, RestoreError>)
    ensures r == Err(NoPassword) <==> u.EncryptedUpload? && (u.password.None? || u.password == Some(""))
    ensures r == Err(WrongPassword) <==>
      u.EncryptedUpload? && u.password.Some? && u.password != Some("") && u.decrypted.NothingDecrypted?
    ensures r.Ok? <==>
      exists b :: Payload(u) == Some(b) && b.income.Some? && b.expenses.Some?
    ensures r.Ok? ==> r.value == Ledger(Payload(u).value.income.value, Payload(u).value.expenses.value)
    ensures r == Err(Unreadable) <==>
      (u.PlainUpload? || (u.password.Some? && u.password != Some("") && u.decrypted.DecryptedText?))
      && Payload(u).None?
    ensures r == Err(InvalidBackup) <==>
      exists b :: Payload(u) == Some(b) && (b.income.None? || b.expenses.None?)
  {
    match u
    case PlainUpload(parsed) => Validate(parsed)
    case EncryptedUpload(password, decrypted) =>
      if password.None? || password == Some("") then Err(NoPassword)
      else match decrypted
        case NothingDecrypted => Err(WrongPassword)
        case DecryptedText(parsed) => Validate(parsed)
  }

  /** The payload an upload yields once its password has been accepted. */
  function Payload(u: Upload): Option<Backup> {
    match u
    case PlainUpload(parsed) => parsed
    case EncryptedUpload(password, decrypted) =>
      if password.None? || password == Some("") then None
      else match decrypted
        case NothingDecrypted => None
        case DecryptedText(parsed) => parsed
  }

  function Validate(parsed: Option<Backup>): Result<Ledger, RestoreError> {
    match parsed
    case None => Err(Unreadable)
    case Some(b) =>
      if b.income.None? || b.expenses.None? then Err(InvalidBackup)
      else Ok(Ledger(b.income.value, b.expenses.value))
  }

  datatype RestoreOutcome = Rejected(error: RestoreError) | Declined | Restored(incomeCount: nat, expenseCount: nat)

  /** `restoreData` once a file is read: the checks of `ReadBackup`, then, if the user confirms
      the counts, `setData({income, expenses})`, replacing the active ledger outright. */
  method RestoreData(st: LocalStorage, u: Upload, confirmed: bool) returns (outcome: RestoreOutcome)
    modifies st
    ensures var r := ReadBackup(u);
      && (r.Err? <==> outcome.Rejected?)
      && (r.Err? ==> outcome == Rejected(r.error))
      && (r.Ok? && !confirmed <==> outcome == Declined)
    ensures !outcome.Restored? ==> st.items == old(st.items)
    ensures outcome.Restored? ==>
      var l := ReadBackup(u).value;
      && outcome == Restored(|l.income|, |l.expenses|)
      && st.items == old(st.items)[Pk(old(st.items), DATA) := LedgerDoc(l)]
      && Data(st.items) == l
  {
    var r := ReadBackup(u);
    if r.Err? {
      return Rejected(r.error);
    }
    if !confirmed {
      return Declined;
    }
    SetData(st, r.value);
    return Restored(|r.value.income|, |r.value.expenses|);
  }

  /** A backup the app wrote restores to the ledger it was taken from, whether it was saved
      plainly or encrypted and decrypted with its password. */
  lemma BackupRoundTrip(items: map<string, Value>, backupDate: string, password: string)
    requires password != ""
    ensures ReadBackup(PlainUpload(Some(MakeBackup(items, backupDate, false)))) == Ok(Data(items))
    ensures ReadBackup(EncryptedUpload(Some(password), DecryptedText(Some(MakeBackup(items, backupDate, true))))) == Ok(Data(items))
  {
  }

  /** Restoring a backup of the active profile into the same profile, confirmed, writes back the
      ledger that was there: the store reads the same ledger, profiles and active id. */
  lemma RestoreOwnBackup(items: map<string, Value>, backupDate: string)
    ensures var l := ReadBackup(PlainUpload(Some(MakeBackup(items, backupDate, false)))).value;
      var m := items[Pk(items, DATA) := LedgerDoc(l)];
      Data(m) == Data(items) && AllProfiles(m) == AllProfiles(items) && ActiveId(m) == ActiveId(items)
  {
    BackupRoundTrip(items, backupDate, "x");
    DataRoundTrip(items, Data(items));
  }
}
