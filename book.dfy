/** The phone book: one ordered list of contacts, changed in place. */
module Book {
  import opened Contacts
  import opened PyList
  import opened Paging
  import opened Generator

  /** Appending well-formed contacts keeps every appended entry well formed. */
  lemma AppendedWellFormed(before: seq<Contact>, added: seq<Contact>)
    requires forall i :: 0 <= i < |added| ==> WellFormedGenerated(added[i])
    ensures forall j :: |before| <= j < |before + added| ==> WellFormedGenerated((before + added)[j])
  {
    forall j | |before| <= j < |before + added|
      ensures WellFormedGenerated((before + added)[j])
    {
      assert (before + added)[j] == added[j - |before|];
    }
  }

  /** One more iteration appends the contact built from the next draw. */
  lemma GeneratedStep(draws: seq<Draw>, i: nat)
    requires i < |draws|
    requires forall j :: 0 <= j < |draws| ==> ValidDraw(draws[j])
    ensures Generated(draws)[..i + 1] == Generated(draws)[..i] + [MakeContact(draws[i])]
  {
    var added := Generated(draws);
    assert added[i] == MakeContact(draws[i]);
    assert added[..i + 1] == added[..i] + [added[i]];
  }

  class Phonebook {
    /** The entries in insertion order; duplicates are allowed. */
    var contacts: seq<Contact>

    /** A new phone book is empty. */
    constructor ()
      ensures contacts == []
    {
      contacts := [];
    }

    /** Appends one entry: the list grows by one, the new entry is last, the rest is unchanged. */
    method AddContact(contact: Contact)
      modifies this
      ensures contacts == old(contacts) + [contact]
      ensures |contacts| == |old(contacts)| + 1 && contacts[|contacts| - 1] == contact
      ensures contacts[..|old(contacts)|] == old(contacts)
    {
      contacts := contacts + [contact];
    }

    /** `contacts[index] = contact`: an index in `-len .. len-1` replaces that one entry
        (a negative one counting from the end); any other index raises IndexError and
        leaves the list as it was. */
    method EditContact(index: int, contact: Contact) returns (outcome: Outcome)
      modifies this
      ensures outcome == (if InRange(index, |old(contacts)|) then Pass else Fail(IndexError))
      ensures outcome.Pass? ==> contacts == SetItem(old(contacts), index, contact).value
      ensures outcome.Fail? ==> contacts == old(contacts)
      ensures 0 <= index < |old(contacts)| ==>
        && |contacts| == |old(contacts)|
        && contacts[index] == contact
        && forall j :: 0 <= j < |contacts| && j != index ==> contacts[j] == old(contacts)[j]
    {
      var updated := SetItem(contacts, index, contact);
      if updated.Ok? {
        contacts := updated.value;
        outcome := Pass;
      } else {
        outcome := Fail(IndexError);
      }
    }

    /** Lists page `pageNum` of `pageSize` entries: the lines it prints, in order, each with its
        label, and whether IndexError cut the listing short. */
    method DisplayContacts(pageNum: int, pageSize: int) returns (shown: Shown)
      ensures shown == Page(contacts, pageNum, pageSize)
    {
      var n := |contacts|;
      var start := (pageNum - 1) * pageSize;
      var end := Min(start + pageSize, n);
      var lines: seq<Line> := [];
      if end <= start {
        return Shown([], Pass);
      }
      var i := start;
      while i < end
        invariant start <= i <= end
        invariant start < i ==> InRange(start, n)
        invariant lines == Labelled(contacts, start, i)
      {
        if !InRange(i, n) {
          return Shown(lines, Fail(IndexError));
        }
        lines := lines + [Line(i + 1, contacts[Resolve(i, n)])];
        i := i + 1;
      }
      return Shown(lines, Pass);
    }

    /** Appends one generated contact per iteration of `range(numContacts)`, built from that
        iteration's draws: the existing entries stay first and unchanged, and every new one
        has names from the pools and phones of the `+7(9dd)ddd-dd-dd` shape. */
    method GenerateContacts(numContacts: int, draws: seq<Draw>)
      requires |draws| == RangeLength(numContacts)
      requires forall i :: 0 <= i < |draws| ==> ValidDraw(draws[i])
      modifies this
      ensures contacts == old(contacts) + Generated(draws)
      ensures |contacts| == |old(contacts)| + RangeLength(numContacts)
      ensures forall j :: |old(contacts)| <= j < |contacts| ==> WellFormedGenerated(contacts[j])
    {
      var i := 0;
      while i < RangeLength(numContacts)
        invariant 0 <= i <= |draws|
        invariant contacts == old(contacts) + Generated(draws)[..i]
      {
        var contact := MakeContact(draws[i]);
        GeneratedStep(draws, i);
        AddContact(contact);
        i := i + 1;
      }
      ghost var added := Generated(draws);
      assert added[..i] == added;
      AppendedWellFormed(old(contacts), added);
    }
  }
}
