/** The records app.js keeps: ledger entries, the per-profile ledger `{income, expenses}` and the
    profile descriptors. Amounts are whole numbers of the smallest currency unit. */
module Model {

  datatype Option<T> = None | Some(value: T)

  /** Which of the ledger's two sequences an entry lives in (`dataType` in app.js). */
  datatype Kind = Income | Expense {
    function Other(): Kind {
      if this == Income then Expense else Income
    }
  }

  /** An entry as the add form stores it. `timestamp` is None for entries written before
      timestamps existed; `note` is "" when there is none. */
  datatype Record = Record(amount: int, category: string, date: string, note: string, timestamp: Option<int>)

  /** The object stored under a profile's `data` key. */
  datatype Ledger = Ledger(income: seq<Record>, expenses: seq<Record>) {
    function Of(kind: Kind): seq<Record> {
      if kind == Income then income else expenses
    }

    /** The ledger with the sequence of `kind` replaced by `s`. */
    function With(kind: Kind, s: seq<Record>): (l: Ledger)
      ensures l.Of(kind) == s && l.Of(kind.Other()) == Of(kind.Other())
    {
      if kind == Income then Ledger(s, expenses) else Ledger(income, s)
    }
  }

  /** What `getData` returns when nothing is stored: `{"income":[],"expenses":[]}`. */
  const EmptyLedger := Ledger([], [])

  /** A profile: `{ id, name, createdAt }`. */
  datatype Profile = Profile(id: string, name: string, createdAt: string)

  /** `records.reduce((s, e) => s + Number(e.amount), 0)`: a fold from the left. */
  function Total(s: seq<Record>): int {
    if s == [] then 0 else Total(s[..|s| - 1]) + s[|s| - 1].amount
  }

  /** Totals add up over concatenation. */
  lemma {:induction false} TotalAppend(a: seq<Record>, b: seq<Record>)
    ensures Total(a + b) == Total(a) + Total(b)
  {
    if b != [] {
      assert (a + b)[..|a + b| - 1] == a + b[..|b| - 1];
      TotalAppend(a, b[..|b| - 1]);
    } else {
      assert a + b == a;
    }
  }
}
