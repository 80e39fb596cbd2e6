/** Expense records as they sit, parsed, in a stored list, and the pure list
    transformations the store and the screens apply to them. */
module Expenses {
  import opened Common

  /** A parsed expense object. Every field is optional because stored data may
      predate the current record shape or be damaged: `None` stands for a field
      that is missing or holds a value of the wrong type (for `amount`: not a
      number; for `description`: not a string). `id` is the `Date.now()` value
      given at creation; `timestamp` and `date` are ISO texts. Records the today
      screen creates have no `date`. The same shape serves as the patch of
      `updateExpenseInDate`, whose present fields override. */
  datatype Entry = Entry(
    id: Option<int>,
    amount: Option<real>,
    description: Option<string>,
    timestamp: Option<string>,
    date: Option<string>)

  /** A numeric form field (`<input type="number">`): the empty text the form
      starts with and is reset to, or text that `parseFloat` reads as `value`. */
  datatype AmountField = Blank | Entered(value: real)

  /** The amount an entry adds to a reduce-sum. */
  function AmountOf(e: Entry): real {
    match e.amount
    case Some(x) => x
    case None => 0.0
  }

  /** `expenses.reduce((sum, e) => sum + e.amount, 0)`. */
  function Total(es: seq<Entry>): real {
    if es == [] then 0.0 else Total(es[..|es| - 1]) + AmountOf(es[|es| - 1])
  }

  lemma {:induction false} TotalAppend(a: seq<Entry>, b: seq<Entry>)
    ensures Total(a + b) == Total(a) + Total(b)
    decreases |b|
  {
    if b == [] {
      assert a + b == a;
    } else {
      assert (a + b)[..|a + b| - 1] == a + b[..|b| - 1];
      TotalAppend(a, b[..|b| - 1]);
    }
  }

  /** Adding one expense at the end raises the total by its amount. */
  lemma TotalSnoc(es: seq<Entry>, e: Entry)
    ensures Total(es + [e]) == Total(es) + AmountOf(e)
  {
    assert (es + [e])[..|es|] == es;
  }

  predicate HasId(e: Entry, id: int) {
    e.id == Some(id)
  }

  /** `{ ...e, ...patch }`: each field of the patch that is present wins. */
  function Overlay(e: Entry, patch: Entry): Entry {
    Entry(
      if patch.id.Some? then patch.id else e.id,
      if patch.amount.Some? then patch.amount else e.amount,
      if patch.description.Some? then patch.description else e.description,
      if patch.timestamp.Some? then patch.timestamp else e.timestamp,
      if patch.date.Some? then patch.date else e.date)
  }

  /** `es.map(e => e.id === id ? { ...e, ...patch } : e)`. */
  function UpdateById(es: seq<Entry>, id: int, patch: Entry): (r: seq<Entry>)
    ensures |r| == |es|
  {
    seq(|es|, i requires 0 <= i < |es| => if HasId(es[i], id) then Overlay(es[i], patch) else es[i])
  }

  /** The update keeps length and order; an entry with the id gets exactly the
      patch's present fields and keeps the others; any other entry is unchanged. */
  lemma UpdateByIdEffect(es: seq<Entry>, id: int, patch: Entry, i: nat)
    requires i < |es|
    ensures |UpdateById(es, id, patch)| == |es|
    ensures !HasId(es[i], id) ==> UpdateById(es, id, patch)[i] == es[i]
    ensures HasId(es[i], id) ==>
      var u := UpdateById(es, id, patch)[i];
      && (patch.id.None? ==> u.id == es[i].id)
      && (patch.amount.None? ==> u.amount == es[i].amount)
      && (patch.description.None? ==> u.description == es[i].description)
      && (patch.timestamp.None? ==> u.timestamp == es[i].timestamp)
      && (patch.date.None? ==> u.date == es[i].date)
      && (patch.id.Some? ==> u.id == patch.id)
      && (patch.amount.Some? ==> u.amount == patch.amount)
      && (patch.description.Some? ==> u.description == patch.description)
      && (patch.timestamp.Some? ==> u.timestamp == patch.timestamp)
      && (patch.date.Some? ==> u.date == patch.date)
  {
  }

  /** `es.filter(e => e.id !== id)`. */
  function WithoutId(es: seq<Entry>, id: int): seq<Entry> {
    if es == [] then []
    else (if HasId(es[0], id) then [] else [es[0]]) + WithoutId(es[1..], id)
  }

  /** The filter removes exactly the entries with the id: what remains is what
      had another id, and the rest of the list keeps its order (the filter
      distributes over concatenation). */
  lemma {:induction false} WithoutIdMembers(es: seq<Entry>, id: int)
    ensures forall e :: e in WithoutId(es, id) <==> e in es && !HasId(e, id)
    ensures |WithoutId(es, id)| <= |es|
  {
    if es != [] {
      WithoutIdMembers(es[1..], id);
      assert es == [es[0]] + es[1..];
    }
  }

  lemma {:induction false} WithoutIdConcat(a: seq<Entry>, b: seq<Entry>, id: int)
    ensures WithoutId(a + b, id) == WithoutId(a, id) + WithoutId(b, id)
  {
    if a == [] {
      assert a + b == b;
    } else {
      assert (a + b)[0] == a[0];
      assert (a + b)[1..] == a[1..] + b;
      WithoutIdConcat(a[1..], b, id);
    }
  }

  /** Deleting an id no entry carries leaves the list as it was. */
  lemma {:induction false} WithoutAbsentId(es: seq<Entry>, id: int)
    requires forall i :: 0 <= i < |es| ==> !HasId(es[i], id)
    ensures WithoutId(es, id) == es
  {
    if es != [] {
      WithoutAbsentId(es[1..], id);
    }
  }

  /** The number of entries carrying an id. */
  function CountId(es: seq<Entry>, id: int): nat {
    if es == [] then 0 else (if HasId(es[0], id) then 1 else 0) + CountId(es[1..], id)
  }

  lemma {:induction false} CountIdConcat(a: seq<Entry>, b: seq<Entry>, id: int)
    ensures CountId(a + b, id) == CountId(a, id) + CountId(b, id)
  {
    if a == [] {
      assert a + b == b;
    } else {
      assert (a + b)[0] == a[0];
      assert (a + b)[1..] == a[1..] + b;
      CountIdConcat(a[1..], b, id);
    }
  }

  lemma {:induction false} CountWithoutId(es: seq<Entry>, id: int)
    ensures CountId(WithoutId(es, id), id) == 0
  {
    if es != [] {
      CountWithoutId(es[1..], id);
      CountIdConcat(if HasId(es[0], id) then [] else [es[0]], WithoutId(es[1..], id), id);
    }
  }

  /** A change one of the history screen's handlers applies to a day's list. */
  datatype ListEdit = UpdateEntry(id: int, patch: Entry) | DeleteEntry(id: int)

  function ApplyEdit(edit: ListEdit, es: seq<Entry>): seq<Entry> {
    match edit
    case UpdateEntry(id, patch) => UpdateById(es, id, patch)
    case DeleteEntry(id) => WithoutId(es, id)
  }

  /** The record the today screen creates from its form. */
  function NewExpense(now: int, amount: real, description: string, nowIso: string): Entry {
    Entry(Some(now), Some(amount), Some(Trim(description)), Some(nowIso), None)
  }

  /** The patch both edit handlers overlay: `{ amount, description }`. */
  function EditPatch(amount: real, description: string): Entry {
    Entry(None, Some(amount), Some(Trim(description)), None, None)
  }

  /** The entry shape the startup validation accepts: an id, a numeric amount,
      a string description and a truthy (present, non-empty) timestamp. */
  predicate WellFormed(e: Entry) {
    e.id.Some? && e.amount.Some? && e.description.Some? && e.timestamp.Some? && e.timestamp.value != ""
  }

  function KeepWellFormed(es: seq<Entry>): seq<Entry> {
    if es == [] then []
    else (if WellFormed(es[0]) then [es[0]] else []) + KeepWellFormed(es[1..])
  }

  /** The validation filter keeps exactly the well-formed entries, in order,
      and keeps every entry exactly when all are well-formed. */
  lemma {:induction false} KeepWellFormedSpec(es: seq<Entry>)
    ensures forall e :: e in KeepWellFormed(es) <==> e in es && WellFormed(e)
    ensures |KeepWellFormed(es)| <= |es|
    ensures |KeepWellFormed(es)| == |es| <==> forall i :: 0 <= i < |es| ==> WellFormed(es[i])
    ensures (forall i :: 0 <= i < |es| ==> WellFormed(es[i])) ==> KeepWellFormed(es) == es
  {
    if es != [] {
      KeepWellFormedSpec(es[1..]);
      assert es == [es[0]] + es[1..];
      if !WellFormed(es[0]) {
        assert !(forall i :: 0 <= i < |es| ==> WellFormed(es[i]));
      }
      if forall i :: 0 <= i < |es| ==> WellFormed(es[i]) {
        assert forall i :: 0 <= i < |es[1..]| ==> WellFormed(es[1..][i]) by {
          forall i | 0 <= i < |es[1..]| ensures WellFormed(es[1..][i]) {
            assert es[1..][i] == es[i + 1];
          }
        }
      } else {
        var k :| 0 <= k < |es| && !WellFormed(es[k]);
        if k > 0 {
          assert es[1..][k - 1] == es[k];
        }
      }
    }
  }

  lemma {:induction false} KeepWellFormedConcat(a: seq<Entry>, b: seq<Entry>)
    ensures KeepWellFormed(a + b) == KeepWellFormed(a) + KeepWellFormed(b)
  {
    if a == [] {
      assert a + b == b;
    } else {
      assert (a + b)[0] == a[0];
      assert (a + b)[1..] == a[1..] + b;
      KeepWellFormedConcat(a[1..], b);
    }
  }

  /** `s.split('T')[0]`: the text before the first `T`. */
  function BeforeT(s: string): string {
    if s == [] || s[0] == 'T' then [] else [s[0]] + BeforeT(s[1..])
  }

  /** `x || fallback` for an optional text: a missing or empty text is falsy. */
  function OrElse(x: Option<string>, fallback: string): Option<string> {
    if x.Some? && x.value != "" then x else Some(fallback)
  }

  /** The migration's `{ ...e, date: e.date || today, timestamp: e.timestamp || now }`. */
  function Backfill(e: Entry, nowIso: string): Entry {
    e.(date := OrElse(e.date, BeforeT(nowIso)), timestamp := OrElse(e.timestamp, nowIso))
  }

  /** What the validation pass would write for a stored list. */
  function Migrate(es: seq<Entry>, nowIso: string): (r: seq<Entry>)
    ensures |r| == |KeepWellFormed(es)|
  {
    var kept := KeepWellFormed(es);
    seq(|kept|, i requires 0 <= i < |kept| => Backfill(kept[i], nowIso))
  }

  /** Migration keeps the kept entries' id, amount, description and timestamp
      (the timestamp backfill never fires, since the filter already demands a
      timestamp); only a missing or empty date is filled in. */
  lemma MigrateEffect(es: seq<Entry>, nowIso: string, i: nat)
    requires i < |Migrate(es, nowIso)|
    ensures var k := KeepWellFormed(es)[i]; var m := Migrate(es, nowIso)[i];
      && WellFormed(k)
      && m.id == k.id && m.amount == k.amount && m.description == k.description
      && m.timestamp == k.timestamp
      && m.date == (if k.date.Some? && k.date.value != "" then k.date else Some(BeforeT(nowIso)))
  {
    KeepWellFormedSpec(es);
    assert KeepWellFormed(es)[i] in KeepWellFormed(es);
  }
}
