/** The contact record and its dictionary form. */
module Contacts {

  datatype Option<T> = None | Some(value: T)

  /** A phone-book entry: six text fields, in the order the record declares them.
      Every field is always present; any string, the empty one included, is accepted. */
  datatype Contact = Contact(
    lastName: string,
    firstName: string,
    middleName: string,
    organization: string,
    workPhone: string,
    personalPhone: string)

  /** The keys of a contact's dictionary form, in insertion order. */
  const FieldNames: seq<string> :=
    ["last_name", "first_name", "middle_name", "organization", "work_phone", "personal_phone"]

  /** A dictionary as its entries in insertion order (the order a JSON dump writes them). */
  type Dict = seq<(string, string)>

  function Keys(d: Dict): seq<string>
  {
    seq(|d|, i requires 0 <= i < |d| => d[i].0)
  }

  /** Dictionary lookup: the value of the first entry with the given key. */
  function Get(d: Dict, key: string): Option<string>
  {
    if d == [] then None
    else if d[0].0 == key then Some(d[0].1)
    else Get(d[1..], key)
  }

  lemma {:induction false} GetAt(d: Dict, i: nat)
    requires i < |d|
    requires forall j :: 0 <= j < i ==> d[j].0 != d[i].0
    ensures Get(d, d[i].0) == Some(d[i].1)
  {
    if i > 0 {
      assert d[1..][i - 1] == d[i];
      GetAt(d[1..], i - 1);
    }
  }

  /** Reads a contact back from its dictionary form; None when a key is missing. */
  function FromDict(d: Dict): Option<Contact>
  {
    match (Get(d, "last_name"), Get(d, "first_name"), Get(d, "middle_name"),
           Get(d, "organization"), Get(d, "work_phone"), Get(d, "personal_phone"))
    case (Some(l), Some(f), Some(m), Some(o), Some(w), Some(p)) => Some(Contact(l, f, m, o, w, p))
    case _ => None
  }

  /** The dictionary form of a contact: exactly the six fixed keys, in declaration order,
      and it loses nothing, since reading it back gives the same contact. */
  function ToDict(c: Contact): (d: Dict)
    ensures Keys(d) == FieldNames
    ensures FromDict(d) == Some(c)
  {
    var d := [("last_name", c.lastName), ("first_name", c.firstName), ("middle_name", c.middleName),
              ("organization", c.organization), ("work_phone", c.workPhone),
              ("personal_phone", c.personalPhone)];
    GetAt(d, 0); GetAt(d, 1); GetAt(d, 2); GetAt(d, 3); GetAt(d, 4); GetAt(d, 5);
    d
  }

  /** Two contacts with the same dictionary form are the same contact. */
  lemma ToDictInjective(a: Contact, b: Contact)
    requires ToDict(a) == ToDict(b)
    ensures a == b
  {
  }
}
