# Contact record store

A verified model of the record store of `gestor-contactos-xml`. The store keeps
an ordered collection of contacts (name, phone, address) in an XML file. Every
public operation re-reads the whole collection, applies one change and writes
the whole collection back:

- **add** appends a contact at the end;
- **list** prints one line per contact in document order, numbered from 1;
- **find**, **update** and **delete** scan in document order. They act on the
  *first* contact whose name equals the query ignoring case;
- **export** writes a header line, then one comma-joined row per contact with a
  row counter from 0.

A missing or zero-length file makes loading fail. Every operation catches that
failure, reports it and changes nothing.

Files:

- `options.dfy`: module `Options`, the `Option` datatype.
- `text.dfy`: module `Text`. It holds the case-insensitive comparison used by
  the scans (ASCII letters folded to lower case) and the decimal text that Java
  produces when an `int` is concatenated to a string, with its read-back.
- `contacts.dfy`: module `Contacts`, the `Contacto` record as the datatype
  `Contact` and its `toString` as `Display`.
- `store.dfy`: module `RecordStore`, `GestorDeContactosXML` as the class
  `ContactStore`. The file is the field `stored: Option<seq<Contact>>`, where
  `None` means "missing or zero-length". `Load` reads that field and `Save`
  replaces it wholesale. Each operation is a method that loads, scans with a
  loop where the Java does, and saves, in the same order as the Java. Results
  that the Java prints become returned values: an `Outcome` (`Done`,
  `NotFound`, `LoadFailed`), the listing's lines, the lookup of `Find`, and the
  lines of the export file.
  The pure function `FirstMatch` specifies the scans. Lemmas relate the
  operations to one another: add then find, update then find, delete then find.
  The method `Session` is a client that replays a short session using only the
  operations' contracts.

Formats and behaviours the code fixes:

- The export header is `Nombre, Teléfono, Dirección`.
- Each export row is `Cliente número `, the counter from 0, then the name,
  phone and address, all joined by `, `.
- The header is written before the collection is loaded. A failed load
  therefore still leaves a header-only export file.
- `buscarContacto` always returns its argument. Its "found" message shows the
  query, not the stored name. `Find` returns the argument as `echo`, and
  `Found` carries the query together with the stored phone and address.

## Model

| member | source | states |
|---|---|---|
| `RecordStore.ContactStore.constructor` | src/main/java/org/example/GestorDeContactosXML.java:24-27 | Opening the store over a missing or empty file leaves an empty collection. An existing collection is kept as it is. |
| `RecordStore.ContactStore.Initialize` | src/main/java/org/example/GestorDeContactosXML.java:33-53 | A missing or zero-length file becomes an empty collection. Otherwise the file is untouched. |
| `RecordStore.ContactStore.Load` | src/main/java/org/example/GestorDeContactosXML.java:62-71 | Loading yields the stored collection. It fails when the file is missing or zero-length. |
| `RecordStore.ContactStore.Save` | src/main/java/org/example/GestorDeContactosXML.java:78-97 | Saving replaces the whole file content with the given collection. |
| `RecordStore.ContactStore.Add` | src/main/java/org/example/GestorDeContactosXML.java:107-124 | After a successful load, the new collection is the old one plus exactly the new contact at the end. A failed load reports `LoadFailed` and changes nothing. |
| `RecordStore.ContactStore.List` | src/main/java/org/example/GestorDeContactosXML.java:144-159 | One line per contact, in document order. Line `i` shows contact `i` numbered `i+1`. An empty collection gives no lines and no error. A failed load gives `LoadFailed`. |
| `RecordStore.ContactStore.Find` | src/main/java/org/example/GestorDeContactosXML.java:167-190 | Always returns its argument. It reports the phone and address of the first case-insensitive match, shown under the query's name, or `Absent` when no contact matches, or `Unreadable` when the load fails. It never changes the store. |
| `RecordStore.ContactStore.Update` | src/main/java/org/example/GestorDeContactosXML.java:200-224 | Only the first match gets all three fields overwritten. Length and every other contact are unchanged. With no match, or a failed load, nothing is written. |
| `RecordStore.ContactStore.Delete` | src/main/java/org/example/GestorDeContactosXML.java:231-253 | Only the first match is removed, and the rest keep their order. With no match, or a failed load, nothing is written. |
| `RecordStore.ContactStore.Export` | src/main/java/org/example/GestorDeContactosXML.java:260-277 | The first line is the header, written even when the load fails; then the file is header-only. Otherwise it holds one row per contact in order, with counter `i` from 0. The store is not changed. |
| `RecordStore.FirstMatch` | src/main/java/org/example/GestorDeContactosXML.java:171-182 | The result is the first position whose name equals the query ignoring case. Every earlier position does not match. `None` means that no position matches. |
| `RecordStore.AddThenFind` | src/main/java/org/example/GestorDeContactosXML.java:107-119 | After an append, a search finds its earlier match if there was one. Failing that, it finds the new contact at the last position when the names match ignoring case. |
| `RecordStore.UpdateThenFind` | src/main/java/org/example/GestorDeContactosXML.java:206-216 | After an update at the first match `k`, searching for the new name finds position `k` with the new fields, unless an earlier contact already has that name. |
| `RecordStore.DeleteRemovesOne` | src/main/java/org/example/GestorDeContactosXML.java:237-246 | Deleting the first match leaves one fewer contact. The others keep their relative order, and the multiset loses exactly the removed contact. |
| `RecordStore.DeleteThenFind` | src/main/java/org/example/GestorDeContactosXML.java:237-246 | After a deletion, searching for the same name finds the next duplicate, or nothing when there is none. |
| `RecordStore.ListLine` | src/main/java/org/example/GestorDeContactosXML.java:154 | A listing line is `Contacto `, the number, `: `, then the contact's text form without its `Nombre: ` label. |
| `RecordStore.CsvRow` | src/main/java/org/example/GestorDeContactosXML.java:271 | An export row begins with the label, the counter, then the name, each followed by `, `. Its length is the sum of its parts, so no escaping adds characters. |
| `RecordStore.CsvRowCounter` | src/main/java/org/example/GestorDeContactosXML.java:271 | An export row starts with `Cliente número `, then the digits of its counter, then a comma. The digits read back to the counter. |
| `RecordStore.CsvRowAmbiguous` | src/main/java/org/example/GestorDeContactosXML.java:271 | Fields are not escaped, so two different contacts can give the same export row. |
| `Contacts.AccessorsReturnConstructorArguments` | src/main/java/org/example/Contacto.java:3-24 | `getNombre`, `getTelefono` and `getDireccion` return exactly the values given to the constructor. The record is an immutable value. |
| `Contacts.Display` | src/main/java/org/example/Contacto.java:27-29 | The text form starts with `Nombre: `. Its length is the sum of the three labels' and three fields' lengths. |
| `Contacts.DisplayLayout` | src/main/java/org/example/Contacto.java:27-29 | `toString` is `Nombre: `, name, `, Teléfono: `, phone, `, Dirección: `, address. Cutting at the field lengths recovers each label and each field. |
| `Contacts.DisplayDeterminesContact` | src/main/java/org/example/Contacto.java:27-29 | Equal text forms with equal name and phone lengths come from the same contact. |
| `Text.FoldCase` | src/main/java/org/example/GestorDeContactosXML.java:175 | An ASCII capital folds to its own lower-case letter, read from the alphabet table. Every other character is kept. The result is never an ASCII capital. |
| `Text.EqualsIgnoreCase` | src/main/java/org/example/GestorDeContactosXML.java:175 | Names that match ignoring case have the same length. |
| `Text.MatchesLoweredForm` | src/main/java/org/example/GestorDeContactosXML.java:175 | Every name matches its all-lower-case form, in either order, so `Ana` matches `ana`. |
| `Text.EqualsIgnoreCaseIffSameLowered` | src/main/java/org/example/GestorDeContactosXML.java:175 | Two names match ignoring case exactly when their folded forms are equal. So the match is an equivalence. |
| `Text.Decimal` | src/main/java/org/example/GestorDeContactosXML.java:154 | The number printed in list and export lines is at least one decimal digit. It starts with `0` only for zero, and zero prints as exactly `0`. |
| `Text.DecimalRoundTrip` | src/main/java/org/example/GestorDeContactosXML.java:271 | The printed digits read back to the number that was printed. |

## Left out

- XML parsing and serialisation. The `javax.xml` document builder and
  transformer, the 4-space indent and the UTF-8 encoding are foreign library
  calls. The file is modelled by the collection it holds, so the XML round trip
  is not proved.
- File-system details. `File.exists`, `length`, `FileWriter` and buffering
  collapse into `stored` for the XML file. The export destination becomes the
  returned list of lines, each without its trailing `\n`; the path is not
  modelled.
- Write failures. A save or an export write that fails with an I/O error is not
  modelled, and every save succeeds. This covers the `TransformerException`
  and `IOException` paths of `inicializarArchivoXML`, and the `RuntimeException`
  that wraps an `IOException` there.
- Malformed documents are not modelled. Their behaviour depends on the XML
  library: a contact missing a child element throws a `NullPointerException`,
  and `getElementsByTagName` also picks up nested `contacto` elements. The model
  assumes a well-formed flat collection.
- Console text is not modelled. Messages become `Outcome` and `Lookup` values,
  except the list and export line formats, which are modelled exactly.
- `Text.EqualsIgnoreCase`: folds ASCII letters only. Java's `equalsIgnoreCase`
  also folds non-ASCII letters (`É` and `é` match there, not here).
- `RecordStore.ContactStore.List`: collections of any length are allowed.
  A Java `NodeList` holds at most 2^31 - 1 elements, so its `int` counter
  cannot overflow. The model admits longer collections than the program can
  hold.
- `RecordStore.ContactStore.Export`: the destination path is not modelled, so
  the model cannot show what happens when it names the store's own file.
  `new FileWriter` at `GestorDeContactosXML.java:261` truncates that file, and
  the header stays in the writer's buffer. The load at line 64 then finds an
  empty file and fails. Closing the writer flushes the header, so the store
  file ends up holding only `Nombre, Teléfono, Dirección`. Every contact is
  lost, and every later load fails to parse. In the model, export never
  changes `stored` and reports `Done` with every row.
- `src/main/java/org/example/Main.java` is not part of this model. It is a
  console menu loop over standard input.
- Concurrent or external modification of the file. The code has no locking, so
  there is nothing to model.
