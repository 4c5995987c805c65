# Phone book contact store

A model of the in-memory contact store of a small command-line phone book (`main.py`).
It covers the `Contact` record and its dictionary form, and the `Phonebook` class, which
holds one ordered list of contacts that it changes in place:

- `add_contact` appends an entry;
- `edit_contact` assigns to a list position;
- `display_contacts` lists one page of entries, each under a 1-based number;
- `generate_contacts` appends synthetic entries drawn from fixed name pools, with random phone numbers.

Layout:

- `contacts.dfy` (module `Contacts`): the six-field `Contact` datatype. `Contact.__init__` is
  its constructor. It also holds `ToDict` (the dictionary form, as insertion-ordered entries)
  and `FromDict`, a reader used as its inverse.
- `pylist.dfy` (module `PyList`): the Python list semantics the store relies on. Negative
  indices count from the end. IndexError is an `Outcome`/`Result` value, not a precondition.
  `SetItem` models `lst[i] = x`.
- `paging.dfy` (module `Paging`): the page window. `Page` specifies what a listing shows, and
  lemmas state the window, the empty pages, the numbering and where each entry appears.
- `decimal.dfy` (module `Decimal`): how an f-string writes a non-negative int (`Show`), and
  its inverse `Value`.
- `generator.dfy` (module `Generator`): the name pools, the phone text, and the contacts one
  batch of draws produces.
- `book.dfy` (module `Book`): the `Phonebook` class. It has a `contacts: seq<Contact>` field.
  Each method states the new list in terms of the old one, or states what it returns.

Inputs the model takes as parameters:

- The random draws. `random.choice` and `random.randint` become a `Draw` per loop iteration:
  the pool positions picked and the integers drawn. The only requirement on them is the range
  the `random` module guarantees.
- Printing. `display_contacts` returns the lines it would print, each as a number and a
  contact, instead of writing them to the console.

Two behaviours of the code that follow from Python's list semantics:

- **Page numbers below 1 are not refused.** The code computes a negative start index, and
  Python's indexing then counts from the end of the list. On a list of twelve, page 0 of
  size 5 shows the last five entries, numbered -4 to 0 (`Paging.TwelveEntries`). A start
  below `-len` raises IndexError at the first index read, before any line is printed
  (`Paging.ShortListNegativePage`, `Paging.ErrorShowsNothing`).
- **Edit accepts any Python list index.** An index with `-len <= index < 0` replaces an
  entry counted from the end. The menu's entry number 0 becomes index -1, so it edits the
  last entry (`PyList.SetItemByEntryNumber`).

## Model

| member | source | states |
|---|---|---|
| Contacts.ToDict | main.py:17-25 | the dictionary form has exactly the keys last_name, first_name, middle_name, organization, work_phone, personal_phone in that order, and reading it back gives the same contact |
| Contacts.ToDictInjective | main.py:17-25 | two contacts with the same dictionary form are equal: no field is lost |
| Book.Phonebook.constructor | main.py:29-30 | a new phone book has an empty list |
| Book.Phonebook.AddContact | main.py:52-54 | the list grows by exactly one, the new contact is last, and every earlier entry is unchanged |
| Book.Phonebook.EditContact | main.py:56-58 | an index in -len..len-1 stores the contact at that position (counted from the end when negative) and nothing else changes; for 0 <= index < len the length is kept, position index holds the contact and all other positions are unchanged; any other index yields IndexError and the list is unchanged |
| PyList.SetItem | main.py:58 | `lst[i] = x` succeeds exactly for -len <= i < len; then the length is kept, the position i refers to (len + i when negative) holds x, and every other position is unchanged |
| PyList.SetItemInside | main.py:58 | assigning at 0 <= i < len succeeds, keeps the length, puts x at i and leaves every other position unchanged |
| PyList.SetItemFromEnd | main.py:58 | assigning at -len <= i < 0 stores at position len + i |
| PyList.SetItemFails | main.py:58 | the assignment raises IndexError exactly when i >= len or i < -len |
| PyList.SetItemByEntryNumber | main.py:116-124 | the menu's entry number p (index p-1) edits entry p for 1 <= p <= len and the last entry for p = 0; it raises IndexError exactly when p > len or p < 1-len |
| Book.Phonebook.DisplayContacts | main.py:60-66 | the lines listed and the outcome equal Page(contacts, pageNum, pageSize): indices from (pageNum-1)*pageSize up to min(start+pageSize, len), each numbered index+1; IndexError only when the first index is below -len |
| Paging.Page | main.py:62-66 | a listing that raises IndexError shows no line; at most pageSize lines (none when pageSize < 0); every line's number minus one is a valid Python index and the line shows the entry that index refers to |
| Paging.PageWindow | main.py:62-64 | for pageNum >= 1 and pageSize >= 0 the listing succeeds and shows exactly the entries start..end-1, in order, numbered start+1..end, every index a valid position, at most pageSize lines |
| Paging.EmptyPage | main.py:62-64 | for pageNum >= 1 and pageSize >= 0 a page is empty exactly when (pageNum-1)*pageSize >= len or pageSize = 0 |
| Paging.LabelsConsecutive | main.py:64-66 | the numbers of the listed lines start at (pageNum-1)*pageSize + 1 and go up by one per line |
| Paging.ErrorShowsNothing | main.py:64-66 | a listing that raises IndexError has shown no line, and it raises exactly when the window is non-empty and starts below -len |
| Paging.EntryOnItsPage | main.py:62-66 | with pageSize > 0, entry i appears on page i/pageSize + 1 at line i%pageSize, numbered i+1 |
| Paging.EntryOnlyOnItsPage | main.py:62-66 | with pageNum >= 1 and pageSize > 0, every line on page pageNum is a valid entry i with pageNum = i/pageSize + 1, so each entry is on exactly one page numbered 1 or more |
| Paging.TwelveEntries | main.py:62-66 | on twelve entries with pages of 5: page 1 shows entries 1-5, page 3 shows 11 and 12, page 4 is empty, page 0 shows the last five entries numbered -4..0 |
| Paging.ShortListNegativePage | main.py:62-66 | on three entries, page -1 of size 5 raises IndexError with nothing shown |
| Decimal.Show | main.py:79-80 | a non-negative int written in decimal is non-empty and all digits, with no leading zero; 0 is written "0" |
| Decimal.ValueOfShow | main.py:79-80 | reading the decimal text back gives the number |
| Decimal.TwoDigits | main.py:79-80 | a number in 10..99 is written with two digits |
| Decimal.ThreeDigits | main.py:79-80 | a number in 100..999 is written with three digits |
| Generator.PhoneNumber | main.py:79-80 | a phone built from draws in 10..99, 100..999, 10..99, 10..99 has the shape +7(9dd)ddd-dd-dd: 16 characters, each d a decimal digit |
| Generator.PhoneRoundTrip | main.py:79-80 | the four digit groups of a generated phone read back as the drawn numbers |
| Generator.MakeContact | main.py:75-82 | the contact one iteration builds has first name, last name, middle name and organization from the fixed pools, and two phones of the +7(9dd)ddd-dd-dd shape |
| Generator.Generated | main.py:74-83 | the loop appends exactly one contact per draw, in loop order, each with pool names and organization and two phones of the +7(9dd)ddd-dd-dd shape |
| Generator.GeneratedCarriesDraws | main.py:74-83 | the work and personal phones of the i-th generated contact read back as the i-th iteration's draws |
| Book.Phonebook.GenerateContacts | main.py:68-83 | exactly max(numContacts, 0) contacts are appended after the unchanged existing entries, in loop order, each built from that iteration's draws and well formed |

## Left out

- `load_contacts` (main.py:32-44) and `save_contacts` (main.py:46-50): file-existence checks and
  JSON reading and writing, which is I/O through a library outside the model. As written, a
  load stores the raw dictionaries rather than `Contact` records. On a JSON decode error it
  keeps the previous list instead of emptying it.
- `search_contacts`: the menu calls it (main.py:127), but `main.py` does not define it, so there
  is no behaviour to model.
- `PhonebookApp.run` and `main` (main.py:85-148): the interactive `input`/`print` menu loop and
  the KeyboardInterrupt handler. The one piece of its arithmetic that reaches the store, entry
  number minus one for an edit, is covered by `PyList.SetItemByEntryNumber`.
- The `random` module: its results are the `Draw` parameters, constrained only to the ranges
  `random.choice` and `random.randint` guarantee.
- The printed text of each listed line (main.py:65-66), which shows last name, first name and
  both phones: the model returns the number and the whole contact instead.
- `Contact` objects as Python references: the source never changes a contact after building
  it, so the model treats contacts as values. Aliasing between list entries does not arise.
- `Contact.to_dict` is not called anywhere in `main.py`. `save_contacts` serialises each
  object's attribute dictionary, which holds the same six keys in the same order.
