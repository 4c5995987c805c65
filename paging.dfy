/** The page window of the listing: which entries a page shows, and under which labels. */
module Paging {
  import opened Contacts
  import opened PyList

  /** One displayed line: the label printed before the entry, and the entry. */
  datatype Line = Line(number: int, contact: Contact)

  /** What a listing call produces: the lines shown, and whether IndexError ended it. */
  datatype Shown = Shown(lines: seq<Line>, outcome: Outcome)

  function Min(a: int, b: int): int { if a <= b then a else b }

  function PageStart(pageNum: int, pageSize: int): int { (pageNum - 1) * pageSize }

  function PageEnd(pageNum: int, pageSize: int, count: nat): int
  {
    Min(PageStart(pageNum, pageSize) + pageSize, count)
  }

  /** The lines for list indices `start .. i-1`, each labelled with its index plus one;
      negative indices count from the end of the list. */
  function Labelled(contacts: seq<Contact>, start: int, i: int): (lines: seq<Line>)
    requires start <= i <= |contacts|
    requires start < i ==> InRange(start, |contacts|)
    ensures |lines| == i - start
  {
    seq(i - start, k requires 0 <= k < i - start =>
      Line(start + k + 1, contacts[Resolve(start + k, |contacts|)]))
  }

  /** The listing of page `pageNum`: indices from `(pageNum-1)*pageSize` up to the smaller of
      that plus `pageSize` and the length. The first index read is the lowest one, so an
      index below `-len` raises IndexError before anything is shown. */
  function Page(contacts: seq<Contact>, pageNum: int, pageSize: int): (r: Shown)
    ensures r.outcome.Fail? ==> r.lines == []
    ensures |r.lines| <= if pageSize < 0 then 0 else pageSize
    ensures forall k :: 0 <= k < |r.lines| ==>
      && InRange(r.lines[k].number - 1, |contacts|)
      && r.lines[k].contact == contacts[Resolve(r.lines[k].number - 1, |contacts|)]
  {
    var n := |contacts|;
    var start := PageStart(pageNum, pageSize);
    var end := PageEnd(pageNum, pageSize, n);
    if end <= start then Shown([], Pass)
    else if start < -n then Shown([], Fail(IndexError))
    else Shown(Labelled(contacts, start, end), Pass)
  }

  lemma StartNonNegative(pageNum: int, pageSize: int)
    requires pageNum >= 1 && pageSize >= 0
    ensures PageStart(pageNum, pageSize) >= 0
  {
  }

  /** For a page number from 1 and a non-negative size, the listing succeeds and shows exactly
      the entries at `start .. end-1`, in order, labelled `start+1 .. end`, at most `pageSize`. */
  lemma PageWindow(contacts: seq<Contact>, pageNum: int, pageSize: int)
    requires pageNum >= 1 && pageSize >= 0
    ensures var start, end := PageStart(pageNum, pageSize), PageEnd(pageNum, pageSize, |contacts|);
      && Page(contacts, pageNum, pageSize).outcome == Pass
      && |Page(contacts, pageNum, pageSize).lines| == (if start < end then end - start else 0)
      && |Page(contacts, pageNum, pageSize).lines| <= pageSize
      && forall k :: 0 <= k < |Page(contacts, pageNum, pageSize).lines| ==>
           0 <= start + k < |contacts|
           && Page(contacts, pageNum, pageSize).lines[k] == Line(start + k + 1, contacts[start + k])
  {
    StartNonNegative(pageNum, pageSize);
    var start, end := PageStart(pageNum, pageSize), PageEnd(pageNum, pageSize, |contacts|);
    if start < end {
      var lines := Labelled(contacts, start, end);
      assert Page(contacts, pageNum, pageSize).lines == lines;
      forall k | 0 <= k < |lines|
        ensures lines[k] == Line(start + k + 1, contacts[start + k])
      {
        assert Resolve(start + k, |contacts|) == start + k;
      }
    }
  }

  /** For a page number from 1 and a non-negative size, a page is empty exactly when it starts
      at or after the end of the list, or has size zero. */
  lemma EmptyPage(contacts: seq<Contact>, pageNum: int, pageSize: int)
    requires pageNum >= 1 && pageSize >= 0
    ensures Page(contacts, pageNum, pageSize).lines == []
        <==> (PageStart(pageNum, pageSize) >= |contacts| || pageSize == 0)
  {
  }

  /** Whatever the arguments, labels run consecutively upward from `start + 1`. */
  lemma LabelsConsecutive(contacts: seq<Contact>, pageNum: int, pageSize: int)
    ensures var lines := Page(contacts, pageNum, pageSize).lines;
      && (lines != [] ==> lines[0].number == PageStart(pageNum, pageSize) + 1)
      && forall k :: 0 <= k < |lines| - 1 ==> lines[k + 1].number == lines[k].number + 1
  {
  }

  /** IndexError only ever happens before the first line: a listing is all or nothing. */
  lemma ErrorShowsNothing(contacts: seq<Contact>, pageNum: int, pageSize: int)
    ensures Page(contacts, pageNum, pageSize).outcome.Fail? ==> Page(contacts, pageNum, pageSize).lines == []
    ensures Page(contacts, pageNum, pageSize).outcome.Fail? <==>
      (PageStart(pageNum, pageSize) < PageEnd(pageNum, pageSize, |contacts|)
       && PageStart(pageNum, pageSize) < -|contacts|)
  {
  }

  /** With pages of `pageSize > 0`, entry `i` is shown on page `i / pageSize + 1`, at line
      `i % pageSize`, labelled `i + 1`. */
  lemma {:induction false} EntryOnItsPage(contacts: seq<Contact>, pageSize: int, i: int)
    requires pageSize > 0 && 0 <= i < |contacts|
    ensures var p := Page(contacts, i / pageSize + 1, pageSize);
      && i % pageSize < |p.lines|
      && p.lines[i % pageSize] == Line(i + 1, contacts[i])
  {
    var pageNum := i / pageSize + 1;
    assert PageStart(pageNum, pageSize) == (i / pageSize) * pageSize;
    assert (i / pageSize) * pageSize + i % pageSize == i;
    PageWindow(contacts, pageNum, pageSize);
  }

  /** ... and on no other page from 1 onward: a line labelled `i + 1` on page `pageNum`
      means `pageNum` is that page. */
  lemma {:induction false} EntryOnlyOnItsPage(contacts: seq<Contact>, pageNum: int, pageSize: int, k: int)
    requires pageNum >= 1 && pageSize > 0
    requires 0 <= k < |Page(contacts, pageNum, pageSize).lines|
    ensures var i := Page(contacts, pageNum, pageSize).lines[k].number - 1;
      0 <= i < |contacts| && pageNum == i / pageSize + 1
  {
    PageWindow(contacts, pageNum, pageSize);
    var start := PageStart(pageNum, pageSize);
    var i := start + k;
    assert Page(contacts, pageNum, pageSize).lines[k].number - 1 == i;
    assert 0 <= k < pageSize;
    DivUnique(i, pageSize, pageNum - 1, k);
  }

  lemma DivUnique(i: int, d: int, q: int, r: int)
    requires d > 0 && 0 <= r < d && i == q * d + r
    ensures i / d == q
  {
    var q', r' := i / d, i % d;
    assert q * d - q' * d == r' - r;
    Distribute(q, q', d);
    if q > q' {
      AtLeastOnce(q - q', d);
    } else if q < q' {
      Distribute(q', q, d);
      AtLeastOnce(q' - q, d);
    }
  }

  lemma Distribute(a: int, b: int, d: int)
    ensures (a - b) * d == a * d - b * d
  {
  }

  lemma AtLeastOnce(x: int, d: int)
    requires x >= 1 && d > 0
    ensures x * d >= d
  {
  }

  /** A list of twelve entries with pages of five: page 1 shows entries 1 to 5, page 3 the
      partial last page 11 and 12, page 4 nothing. Page 0 is not refused: it starts at
      index -5 and shows the last five entries, labelled -4 to 0. */
  lemma TwelveEntries(contacts: seq<Contact>)
    requires |contacts| == 12
    ensures Page(contacts, 1, 5) == Shown(Labelled(contacts, 0, 5), Pass)
    ensures forall k :: 0 <= k < 5 ==> Page(contacts, 1, 5).lines[k] == Line(k + 1, contacts[k])
    ensures Page(contacts, 3, 5) == Shown([Line(11, contacts[10]), Line(12, contacts[11])], Pass)
    ensures Page(contacts, 4, 5) == Shown([], Pass)
    ensures |Page(contacts, 0, 5).lines| == 5
    ensures forall k :: 0 <= k < 5 ==> Page(contacts, 0, 5).lines[k] == Line(k - 4, contacts[7 + k])
  {
    assert Page(contacts, 1, 5) == Shown(Labelled(contacts, 0, 5), Pass);
    PageWindow(contacts, 1, 5);
    var third := Page(contacts, 3, 5).lines;
    PageWindow(contacts, 3, 5);
    assert third[0] == Line(11, contacts[10]) && third[1] == Line(12, contacts[11]);
    assert third == [Line(11, contacts[10]), Line(12, contacts[11])];
    var last := Labelled(contacts, -5, 0);
    assert Page(contacts, 0, 5) == Shown(last, Pass);
    forall k | 0 <= k < 5 ensures last[k] == Line(k - 4, contacts[7 + k]) {
      assert Resolve(-5 + k, 12) == 7 + k;
    }
  }

  /** On a list of three, page -1 of size 5 starts at index -10 and raises IndexError. */
  lemma ShortListNegativePage(contacts: seq<Contact>)
    requires |contacts| == 3
    ensures Page(contacts, -1, 5) == Shown([], Fail(IndexError))
  {
  }
}
