/** The browser's `localStorage`: a flat map from key texts to stored texts,
    here held as the values those texts parse to, plus an order in which
    `Object.keys(localStorage)` lists the keys. The Web Storage standard leaves
    that order to the browser; the model fixes one (a key joins the end when
    it is first set) so that iteration over the keys is deterministic. */
module Store {
  import opened Common
  import opened Expenses

  /** The object `saveAppSettings` serialises. */
  datatype AppSettings = AppSettings(
    darkMode: bool,
    homeCurrency: string,
    exchangeRate: real,
    defaultBudget: real)

  /** What a stored text is, as the code reads it back:
      a JSON array of expense objects, the decimal text of a number, a JSON
      settings object, plain text that is not JSON (such as a currency code;
      `Text("")` is the empty text), or damaged text on which `JSON.parse`
      throws. */
  datatype Value =
    | Records(entries: seq<Entry>)
    | Number(x: real)
    | Settings(settings: AppSettings)
    | Text(text: string)
    | Unparseable

  /** `if (saved)` on the result of `getItem`: the key is present and its text is
      not empty. */
  predicate Truthy(v: Option<Value>) {
    v.Some? && v.value != Text("")
  }

  /** `getItem(key)`: `None` stands for `null`. */
  function Lookup(items: map<string, Value>, key: string): (r: Option<Value>)
    ensures r.Some? <==> key in items
    ensures r.Some? ==> r.value == items[key]
  {
    if key in items then Some(items[key]) else None
  }

  predicate NoDuplicates(ks: seq<string>) {
    forall i, j :: 0 <= i < j < |ks| ==> ks[i] != ks[j]
  }

  /** The model's key order after `setItem(key, …)`: a new key goes last. */
  function WithKey(ks: seq<string>, key: string): (r: seq<string>)
    ensures NoDuplicates(ks) ==> NoDuplicates(r)
    ensures forall k :: k in r <==> k in ks || k == key
  {
    if key in ks then ks else ks + [key]
  }

  /** The model's key order after `removeItem(key)`: the others keep their
      order. */
  function Except(ks: seq<string>, key: string): (r: seq<string>)
    ensures forall k :: k in r <==> k in ks && k != key
    ensures NoDuplicates(ks) ==> NoDuplicates(r)
    ensures |r| <= |ks|
  {
    if ks == [] then []
    else
      var rest := Except(ks[1..], key);
      assert forall k :: k in ks <==> k == ks[0] || k in ks[1..] by {
        assert ks == [ks[0]] + ks[1..];
      }
      if ks[0] == key then rest
      else
        assert NoDuplicates(ks) ==> ks[0] !in ks[1..] && NoDuplicates(ks[1..]) by {
          if NoDuplicates(ks) {
            forall k | 0 <= k < |ks[1..]| ensures ks[1..][k] != ks[0] {
              assert ks[1..][k] == ks[k + 1];
            }
            forall p, q | 0 <= p < q < |ks[1..]| ensures ks[1..][p] != ks[1..][q] {
              assert ks[1..][p] == ks[p + 1] && ks[1..][q] == ks[q + 1];
            }
          }
        }
        [ks[0]] + rest
  }

  lemma {:induction false} ExceptConcat(a: seq<string>, b: seq<string>, key: string)
    ensures Except(a + b, key) == Except(a, key) + Except(b, key)
  {
    if a == [] {
      assert a + b == b;
    } else {
      assert (a + b)[0] == a[0];
      assert (a + b)[1..] == a[1..] + b;
      ExceptConcat(a[1..], b, key);
    }
  }

  lemma {:induction false} ExceptAbsent(ks: seq<string>, key: string)
    requires key !in ks
    ensures Except(ks, key) == ks
  {
    if ks != [] {
      assert ks[0] in ks;
      assert forall k :: k in ks[1..] ==> k in ks by {
        assert ks == [ks[0]] + ks[1..];
      }
      ExceptAbsent(ks[1..], key);
    }
  }

  class LocalStorage {
    /** `Object.keys(localStorage)`, in the order the model fixes. */
    var keys: seq<string>
    var items: map<string, Value>

    ghost predicate Valid()
      reads this
    {
      NoDuplicates(keys) && forall k :: k in items <==> k in keys
    }

    constructor ()
      ensures Valid() && keys == [] && items == map[]
    {
      keys := [];
      items := map[];
    }

    function GetItem(key: string): Option<Value>
      reads this
    {
      Lookup(items, key)
    }

    /** `setItem(key, text)`. A write may throw (the storage quota is
        exceeded): then `ok` is false and nothing changes. */
    method SetItem(key: string, v: Value) returns (ok: bool)
      requires Valid()
      modifies this
      ensures Valid()
      ensures ok ==> items == old(items)[key := v] && keys == WithKey(old(keys), key)
      ensures !ok ==> items == old(items) && keys == old(keys)
    {
      ok :| true;
      if ok {
        keys := WithKey(keys, key);
        items := items[key := v];
      }
    }

    /** `removeItem(key)`; removing an absent key does nothing. */
    method RemoveItem(key: string)
      requires Valid()
      modifies this
      ensures Valid()
      ensures items == old(items) - {key} && keys == Except(old(keys), key)
    {
      keys := Except(keys, key);
      items := items - {key};
    }
  }
}
