/** The contact record: an immutable triple of name, phone and address, and
    the one-line text form the record prints as. */
module Contacts {

  /** A contact. The three fields are set once, by the constructor, and only
      read afterwards; any of them may be empty. */
  datatype Contact = Contact(name: string, phone: string, address: string)

  const NameLabel: string := "Nombre: "
  const PhoneLabel: string := ", Teléfono: "
  const AddressLabel: string := ", Dirección: "

  /** The accessors give back exactly what the constructor was given. */
  lemma AccessorsReturnConstructorArguments(name: string, phone: string, address: string)
    ensures Contact(name, phone, address).name == name
    ensures Contact(name, phone, address).phone == phone
    ensures Contact(name, phone, address).address == address
  {
  }

  /** The text form of a contact: labelled fields in the order name, phone,
      address. */
  function Display(c: Contact): (r: string)
    ensures |r| == |NameLabel| + |c.name| + |PhoneLabel| + |c.phone| + |AddressLabel| + |c.address|
    ensures NameLabel <= r
  {
    NameLabel + c.name + PhoneLabel + c.phone + AddressLabel + c.address
  }

  /** Every field and every label sits at its place in the text form: cutting
      the text at the offsets the field lengths give recovers the fields. */
  lemma DisplayLayout(c: Contact)
    ensures var r, p, q := Display(c), |NameLabel| + |c.name|, |NameLabel| + |c.name| + |PhoneLabel| + |c.phone|;
      && |r| == q + |AddressLabel| + |c.address|
      && r[..|NameLabel|] == NameLabel
      && r[|NameLabel|..p] == c.name
      && r[p..p + |PhoneLabel|] == PhoneLabel
      && r[p + |PhoneLabel|..q] == c.phone
      && r[q..q + |AddressLabel|] == AddressLabel
      && r[q + |AddressLabel|..] == c.address
  {
  }

  /** Two contacts with equal text forms are the same contact once the lengths
      of the name and the phone are known; without them the text form is
      ambiguous, since fields are not escaped. */
  lemma DisplayDeterminesContact(c: Contact, d: Contact)
    requires Display(c) == Display(d)
    requires |c.name| == |d.name| && |c.phone| == |d.phone|
    ensures c == d
  {
    DisplayLayout(c);
    DisplayLayout(d);
  }
}
