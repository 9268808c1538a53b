/** The contact record store: a file holding an ordered collection of
    contacts. Every public operation reads the whole collection afresh, applies
    one change and writes the whole collection back. The file is modelled by
    the collection it holds; parsing and writing the document format are not. */
module RecordStore {

  import opened Options
  import opened Text
  import opened Contacts

  /** What a mutating, listing or exporting operation reports. */
  datatype Outcome = Done | NotFound | LoadFailed

  /** What a search reports. `Found` carries the contact as it is shown: the
      query in place of the stored name, with the stored phone and address. */
  datatype Lookup = Found(shown: Contact) | Absent | Unreadable

  /** Position of the first contact, in document order, whose name equals
      `name` ignoring case. */
  function FirstMatch(s: seq<Contact>, name: string): (r: Option<nat>)
    ensures r.Some? ==> r.value < |s| && EqualsIgnoreCase(s[r.value].name, name)
    ensures r.Some? ==> forall j | 0 <= j < r.value :: !EqualsIgnoreCase(s[j].name, name)
    ensures r.None? ==> forall j | 0 <= j < |s| :: !EqualsIgnoreCase(s[j].name, name)
  {
    if s == [] then None
    else if EqualsIgnoreCase(s[0].name, name) then Some(0)
    else match FirstMatch(s[1..], name)
      case None => None
      case Some(k) => Some(k + 1)
  }

  /** The line the listing prints for the contact numbered `k`: the contact's
      text form with its name label replaced by the number. */
  function ListLine(k: nat, c: Contact): (r: string)
    ensures r == "Contacto " + Decimal(k) + ": " + Display(c)[|NameLabel|..]
  {
    "Contacto " + Decimal(k) + ": " + c.name + PhoneLabel + c.phone + AddressLabel + c.address
  }

  const CsvHeader: string := "Nombre, Teléfono, Dirección"
  const CsvRowLabel: string := "Cliente número "

  /** The line the export writes for the contact with row counter `i`; fields
      are joined by ", " and are not escaped. */
  function CsvRow(i: nat, c: Contact): (r: string)
    ensures |r| == |CsvRowLabel| + |Decimal(i)| + 6 + |c.name| + |c.phone| + |c.address|
    ensures CsvRowLabel + Decimal(i) + ", " + c.name + ", " <= r
  {
    CsvRowLabel + Decimal(i) + ", " + c.name + ", " + c.phone + ", " + c.address
  }

  /** `FirstMatch` is determined by its contract: the first matching position. */
  lemma FirstMatchAt(s: seq<Contact>, name: string, k: nat)
    requires k < |s| && EqualsIgnoreCase(s[k].name, name)
    requires forall j | 0 <= j < k :: !EqualsIgnoreCase(s[j].name, name)
    ensures FirstMatch(s, name) == Some(k)
  {
  }

  /** `FirstMatch` is determined by its contract: no position when none matches. */
  lemma FirstMatchNone(s: seq<Contact>, name: string)
    requires forall j | 0 <= j < |s| :: !EqualsIgnoreCase(s[j].name, name)
    ensures FirstMatch(s, name) == None
  {
  }

  /** After an append, a search finds what it found before; failing that, it
      finds the new contact when its name matches, at the last position. */
  lemma AddThenFind(s: seq<Contact>, c: Contact, name: string)
    ensures FirstMatch(s + [c], name) ==
      if FirstMatch(s, name).Some? then FirstMatch(s, name)
      else if EqualsIgnoreCase(c.name, name) then Some(|s|)
      else None
  {
    var t := s + [c];
    assert forall j | 0 <= j < |s| :: t[j] == s[j];
    match FirstMatch(s, name)
    case Some(k) =>
      FirstMatchAt(t, name, k);
    case None =>
      if EqualsIgnoreCase(c.name, name) {
        FirstMatchAt(t, name, |s|);
      } else {
        FirstMatchNone(t, name);
      }
  }

  /** After an update of the first match at `k`, a search for the new name
      finds the updated contact at `k`, unless an earlier contact already
      carries that name. */
  lemma UpdateThenFind(s: seq<Contact>, original: string, k: nat, c: Contact)
    requires FirstMatch(s, original) == Some(k)
    requires forall j | 0 <= j < k :: !EqualsIgnoreCase(s[j].name, c.name)
    ensures FirstMatch(s[k := c], c.name) == Some(k)
    ensures s[k := c][k] == c
  {
    var t := s[k := c];
    assert EqualsIgnoreCase(t[k].name, c.name);
    assert forall j | 0 <= j < k :: t[j] == s[j];
    FirstMatchAt(t, c.name, k);
  }

  /** Deleting the first match at `k` removes exactly that one contact: one
      fewer contact, the others in their relative order, and the same multiset
      less the removed one. */
  lemma DeleteRemovesOne(s: seq<Contact>, name: string, k: nat)
    requires FirstMatch(s, name) == Some(k)
    ensures var r := s[..k] + s[k + 1..];
      && |r| == |s| - 1
      && (forall j | 0 <= j < k :: r[j] == s[j])
      && (forall j | k <= j < |r| :: r[j] == s[j + 1])
      && multiset(r) + multiset{s[k]} == multiset(s)
  {
    assert s == s[..k] + [s[k]] + s[k + 1..];
  }

  /** After deleting the first match at `k`, a search for the same name finds
      the next duplicate, if there is one, and nothing otherwise. */
  lemma DeleteThenFind(s: seq<Contact>, name: string, k: nat)
    requires FirstMatch(s, name) == Some(k)
    ensures FirstMatch(s[..k] + s[k + 1..], name) ==
      match FirstMatch(s[k + 1..], name)
      case None => None
      case Some(m) => Some(k + m)
  {
    var r, u := s[..k] + s[k + 1..], s[k + 1..];
    var found := FirstMatch(u, name);
    var stop := if found.Some? then k + found.value else |r|;
    forall j | 0 <= j < stop
      ensures !EqualsIgnoreCase(r[j].name, name)
    {
      if j < k {
        assert r[j] == s[j];
      } else {
        assert r[j] == u[j - k];
      }
    }
    if found.Some? {
      assert r[stop] == u[found.value];
      FirstMatchAt(r, name, stop);
    } else {
      FirstMatchNone(r, name);
    }
  }

  /** The row counter can be read back from an export row: the label, then
      the digits of the counter, then the first comma. */
  lemma CsvRowCounter(i: nat, c: Contact)
    ensures var r, d := CsvRow(i, c), Decimal(i);
      && |r| > |CsvRowLabel| + |d|
      && r[..|CsvRowLabel|] == CsvRowLabel
      && IsDigits(r[|CsvRowLabel|..|CsvRowLabel| + |d|])
      && DecimalValue(r[|CsvRowLabel|..|CsvRowLabel| + |d|]) == i
      && r[|CsvRowLabel| + |d|] == ','
  {
    var d := Decimal(i);
    var a := CsvRowLabel + d;
    var r := CsvRow(i, c);
    assert r == a + (", " + c.name + ", " + c.phone + ", " + c.address);
    assert r[..|CsvRowLabel|] == CsvRowLabel;
    assert r[|CsvRowLabel|..|CsvRowLabel| + |d|] == d;
    DecimalRoundTrip(i);
  }

  /** Fields are not escaped, so two different contacts can export to the
      same row. */
  lemma CsvRowAmbiguous()
    ensures exists c: Contact, d: Contact :: c != d && CsvRow(0, c) == CsvRow(0, d)
  {
    var x, y, p, a := "Ana", "555", "1111", "Calle 1";
    var c := Contact(x + ", " + y, p, a);
    var d := Contact(x, y + ", " + p, a);
    assert |c.name| != |d.name|;
    var lead := CsvRowLabel + Decimal(0) + ", ";
    assert CsvRow(0, c) == lead + x + ", " + y + ", " + p + ", " + a;
    assert CsvRow(0, d) == lead + x + ", " + y + ", " + p + ", " + a;
  }

  /** A contact store over one file. */
  class ContactStore {

    /** The collection the file holds; `None` when the file is missing or
        zero-length. */
    var stored: Option<seq<Contact>>

    /** Opens the store over a file that currently holds `file`, creating an
        empty collection if the file is missing or empty. */
    constructor (file: Option<seq<Contact>>)
      ensures stored == if file.None? then Some([]) else file
    {
      stored := file;
      new;
      Initialize();
    }

    /** Writes an empty collection when the file is missing or zero-length;
        otherwise the file is left untouched. */
    method Initialize()
      modifies this
      ensures stored == if old(stored).None? then Some([]) else old(stored)
    {
      if stored.None? {
        Save([]);
      }
    }

    /** Reads the collection; fails (`None`) when the file is missing or
        zero-length. */
    method Load() returns (doc: Option<seq<Contact>>)
      ensures doc == stored
    {
      doc := stored;
    }

    /** Replaces the whole file content with `doc`. */
    method Save(doc: seq<Contact>)
      modifies this
      ensures stored == Some(doc)
    {
      stored := Some(doc);
    }

    /** Appends one contact at the end of the collection. */
    method Add(name: string, phone: string, address: string) returns (outcome: Outcome)
      modifies this
      ensures old(stored).None? ==> outcome == LoadFailed && stored == old(stored)
      ensures old(stored).Some? ==>
        outcome == Done && stored == Some(old(stored).value + [Contact(name, phone, address)])
    {
      var loaded := Load();
      if loaded.None? {
        return LoadFailed;
      }
      Save(loaded.value + [Contact(name, phone, address)]);
      outcome := Done;
    }

    /** The listing: one line per contact in document order, numbered from 1. */
    method List() returns (lines: seq<string>, outcome: Outcome)
      ensures stored.None? ==> outcome == LoadFailed && lines == []
      ensures stored.Some? ==> outcome == Done && |lines| == |stored.value|
      ensures stored.Some? ==>
        forall i | 0 <= i < |lines| :: lines[i] == ListLine(i + 1, stored.value[i])
    {
      var loaded := Load();
      if loaded.None? {
        return [], LoadFailed;
      }
      var doc := loaded.value;
      lines := [];
      var i := 0;
      while i < |doc|
        invariant 0 <= i <= |doc|
        invariant |lines| == i
        invariant forall j | 0 <= j < i :: lines[j] == ListLine(j + 1, doc[j])
      {
        lines := lines + [ListLine(i + 1, doc[i])];
        i := i + 1;
      }
      outcome := Done;
    }

    /** Searches for the first contact whose name equals `name` ignoring case.
        Returns `name` itself whatever the search finds. */
    method Find(name: string) returns (echo: string, result: Lookup)
      ensures echo == name
      ensures stored.None? ==> result == Unreadable
      ensures stored.Some? ==> match FirstMatch(stored.value, name)
        case None => result == Absent
        case Some(k) => result == Found(Contact(name, stored.value[k].phone, stored.value[k].address))
    {
      echo := name;
      var loaded := Load();
      if loaded.None? {
        return echo, Unreadable;
      }
      var doc := loaded.value;
      var i := 0;
      while i < |doc|
        invariant 0 <= i <= |doc|
        invariant forall j | 0 <= j < i :: !EqualsIgnoreCase(doc[j].name, name)
      {
        if EqualsIgnoreCase(doc[i].name, name) {
          return echo, Found(Contact(name, doc[i].phone, doc[i].address));
        }
        i := i + 1;
      }
      result := Absent;
    }

    /** Overwrites all three fields of the first contact whose name equals
        `original` ignoring case; writes nothing when no contact matches. */
    method Update(original: string, newName: string, newPhone: string, newAddress: string)
      returns (outcome: Outcome)
      modifies this
      ensures old(stored).None? ==> outcome == LoadFailed && stored == old(stored)
      ensures old(stored).Some? ==> match FirstMatch(old(stored).value, original)
        case None => outcome == NotFound && stored == old(stored)
        case Some(k) =>
          outcome == Done && stored == Some(old(stored).value[k := Contact(newName, newPhone, newAddress)])
    {
      var loaded := Load();
      if loaded.None? {
        return LoadFailed;
      }
      var doc := loaded.value;
      var i := 0;
      while i < |doc|
        invariant 0 <= i <= |doc|
        invariant stored == old(stored)
        invariant forall j | 0 <= j < i :: !EqualsIgnoreCase(doc[j].name, original)
      {
        if EqualsIgnoreCase(doc[i].name, original) {
          Save(doc[i := Contact(newName, newPhone, newAddress)]);
          return Done;
        }
        i := i + 1;
      }
      outcome := NotFound;
    }

    /** Removes the first contact whose name equals `name` ignoring case;
        writes nothing when no contact matches. */
    method Delete(name: string) returns (outcome: Outcome)
      modifies this
      ensures old(stored).None? ==> outcome == LoadFailed && stored == old(stored)
      ensures old(stored).Some? ==> match FirstMatch(old(stored).value, name)
        case None => outcome == NotFound && stored == old(stored)
        case Some(k) =>
          outcome == Done && stored == Some(old(stored).value[..k] + old(stored).value[k + 1..])
    {
      var loaded := Load();
      if loaded.None? {
        return LoadFailed;
      }
      var doc := loaded.value;
      var i := 0;
      while i < |doc|
        invariant 0 <= i <= |doc|
        invariant stored == old(stored)
        invariant forall j | 0 <= j < i :: !EqualsIgnoreCase(doc[j].name, name)
      {
        if EqualsIgnoreCase(doc[i].name, name) {
          Save(doc[..i] + doc[i + 1..]);
          return Done;
        }
        i := i + 1;
      }
      outcome := NotFound;
    }

    /** The export file, as its lines: the header is written first, even when
        the collection then cannot be loaded, followed by one row per contact
        in document order with a row counter from 0. */
    method Export() returns (csv: seq<string>, outcome: Outcome)
      ensures |csv| >= 1 && csv[0] == CsvHeader
      ensures stored.None? ==> outcome == LoadFailed && csv == [CsvHeader]
      ensures stored.Some? ==> outcome == Done && |csv| == |stored.value| + 1
      ensures stored.Some? ==>
        forall i | 0 <= i < |stored.value| :: csv[i + 1] == CsvRow(i, stored.value[i])
    {
      csv := [CsvHeader];
      var loaded := Load();
      if loaded.None? {
        return csv, LoadFailed;
      }
      var doc := loaded.value;
      var i := 0;
      while i < |doc|
        invariant 0 <= i <= |doc|
        invariant |csv| == i + 1 && csv[0] == CsvHeader
        invariant forall j | 0 <= j < i :: csv[j + 1] == CsvRow(j, doc[j])
      {
        csv := csv + [CsvRow(i, doc[i])];
        i := i + 1;
      }
      outcome := Done;
    }
  }

  /** A session as a caller sees it, using only the operations' contracts:
      a fresh file, two additions, a case-insensitive update, a deletion and
      an export. */
  method Session()
  {
    var store := new ContactStore(None);
    var lines, outcome := store.List();
    assert lines == [] && outcome == Done;

    outcome := store.Add("Ana", "555-1111", "Calle 1");
    outcome := store.Add("Beto", "555-2222", "Calle 2");
    lines, outcome := store.List();
    assert |lines| == 2 && lines[0] == ListLine(1, Contact("Ana", "555-1111", "Calle 1"));

    assert EqualsIgnoreCase("Ana", "ana");
    FirstMatchAt(store.stored.value, "ana", 0);
    outcome := store.Update("ana", "Ana G.", "555-9999", "Calle 9");
    assert outcome == Done;
    assert store.stored.value[0] == Contact("Ana G.", "555-9999", "Calle 9");

    assert !EqualsIgnoreCase("Ana G.", "Beto");
    FirstMatchAt(store.stored.value, "Beto", 1);
    ghost var before := store.stored.value;
    assert |before| == 2 && before[0] == Contact("Ana G.", "555-9999", "Calle 9");
    assert before[..1] + before[2..] == [before[0]];
    outcome := store.Delete("Beto");
    assert store.stored == Some([Contact("Ana G.", "555-9999", "Calle 9")]);

    var csv;
    csv, outcome := store.Export();
    assert store.stored.value[0] == Contact("Ana G.", "555-9999", "Calle 9");
    assert |csv| == 2 && csv[0] == CsvHeader && csv[1] == CsvRow(0, Contact("Ana G.", "555-9999", "Calle 9"));
  }
}
