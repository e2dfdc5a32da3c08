/** Executor A4 (tasksA.py): sort the contacts by `(last_name, first_name)`
    with Python's stable `sorted`. */
module ContactSort {
  import opened Wrappers
  import PyStr
  import StableSort

  /** A contact as `json.load` returns it; every field holds a string. */
  type Contact = map<string, string>

  /** The key `(x["last_name"], x["first_name"])`. */
  datatype SortKey = SortKey(last: string, first: string)

  /** Both key fields are present. */
  predicate HasKey(c: Contact) {
    "last_name" in c && "first_name" in c
  }

  /** The key of a contact that has both fields (an absent field reads as
      the empty string; sorting only happens when none is absent). */
  function KeyOf(c: Contact): SortKey {
    SortKey(if "last_name" in c then c["last_name"] else "",
            if "first_name" in c then c["first_name"] else "")
  }

  /** `<` on the key tuples: by last name, then by first name. */
  predicate KeyLt(a: SortKey, b: SortKey) {
    PyStr.StrLt(a.last, b.last) || (a.last == b.last && PyStr.StrLt(a.first, b.first))
  }

  /** `str(e)` of the `KeyError` the key function raises on `c`; the last
      name is looked up first. */
  function MissingField(c: Contact): string
    requires !HasKey(c)
  {
    if "last_name" !in c then "'last_name'" else "'first_name'"
  }

  /** `sorted` computes every key, in list order, before comparing; the first
      contact that lacks a field raises. */
  function KeyError(contacts: seq<Contact>): (r: Option<string>)
    ensures r.None? <==> forall i | 0 <= i < |contacts| :: HasKey(contacts[i])
    ensures r.Some? ==> exists i | 0 <= i < |contacts| ::
      && !HasKey(contacts[i])
      && (forall j | 0 <= j < i :: HasKey(contacts[j]))
      && r.value == MissingField(contacts[i])
  {
    if contacts == [] then None
    else if !HasKey(contacts[0]) then Some(MissingField(contacts[0]))
    else
      var r := KeyError(contacts[1..]);
      if r.Some? then
        var i :| 0 <= i < |contacts[1..]| && !HasKey(contacts[1..][i])
          && (forall j | 0 <= j < i :: HasKey(contacts[1..][j]))
          && r.value == MissingField(contacts[1..][i]);
        assert !HasKey(contacts[i + 1]) && forall j | 0 <= j < i + 1 :: HasKey(contacts[j]);
        r
      else r
  }

  /** The key ordering is a strict total order, as tuple comparison of
      strings is. */
  lemma KeyLtIsStrictTotalOrder()
    ensures StableSort.StrictTotalOrder(KeyLt)
  {
    forall a: SortKey ensures !KeyLt(a, a) {
      PyStr.StrLtIrreflexive(a.last);
      PyStr.StrLtIrreflexive(a.first);
    }
    forall a: SortKey, b: SortKey, c: SortKey | KeyLt(a, b) && KeyLt(b, c) ensures KeyLt(a, c) {
      if PyStr.StrLt(a.last, b.last) && PyStr.StrLt(b.last, c.last) {
        PyStr.StrLtTransitive(a.last, b.last, c.last);
      } else if a.last == b.last && b.last == c.last {
        PyStr.StrLtTransitive(a.first, b.first, c.first);
      }
    }
    forall a: SortKey, b: SortKey | a != b ensures KeyLt(a, b) || KeyLt(b, a) {
      if a.last != b.last {
        PyStr.StrLtTotal(a.last, b.last);
      } else {
        PyStr.StrLtTotal(a.first, b.first);
      }
    }
  }

  /** `sorted(contacts, key=lambda x: (x["last_name"], x["first_name"]))`:
      the `KeyError` of the first contact lacking a field, or the contacts
      in key order. */
  function A4(contacts: seq<Contact>): (r: Result<seq<Contact>, string>)
    ensures r.Success? <==> forall i | 0 <= i < |contacts| :: HasKey(contacts[i])
    ensures r.Failure? ==> Some(r.error) == KeyError(contacts)
    ensures r.Success? ==> multiset(r.value) == multiset(contacts)
    ensures r.Success? ==> StableSort.SortedBy(r.value, KeyOf, KeyLt)
    ensures r.Success? ==> forall i | 0 <= i < |r.value| :: HasKey(r.value[i])
  {
    match KeyError(contacts)
    case Some(e) => Failure(e)
    case None =>
      KeyLtIsStrictTotalOrder();
      StableSort.SortSorted(contacts, KeyOf, KeyLt);
      var sorted := StableSort.Sort(contacts, KeyOf, KeyLt);
      assert forall i | 0 <= i < |sorted| :: sorted[i] in multiset(contacts);
      Success(sorted)
  }

  /** Contacts with equal keys keep their input order. */
  lemma A4IsStable(contacts: seq<Contact>, k: SortKey)
    requires A4(contacts).Success?
    ensures StableSort.WithKey(A4(contacts).value, KeyOf, k) == StableSort.WithKey(contacts, KeyOf, k)
  {
    KeyLtIsStrictTotalOrder();
    StableSort.SortStable(contacts, KeyOf, KeyLt, k);
  }

  /** In the output, no contact's last name is above a later one's, and
      among equal last names no first name is above a later one's. */
  lemma A4OrdersByLastThenFirst(contacts: seq<Contact>, i: int, j: int)
    requires A4(contacts).Success?
    requires 0 <= i < j < |A4(contacts).value|
    ensures var s := A4(contacts).value;
      && !PyStr.StrLt(s[j]["last_name"], s[i]["last_name"])
      && (s[j]["last_name"] == s[i]["last_name"] ==> !PyStr.StrLt(s[j]["first_name"], s[i]["first_name"]))
  {
  }
}
