/** The parts only the pre-approval encoder writes: its single sender document and the
    sender's address.

    As in `Sections`, each part is a function giving its writes in order and a method that
    performs them on the dictionary, with lemmas saying which value every key ends up
    with. */
module PreApprovalSections {
  import opened Options
  import opened Keys
  import opened ParameterMap
  import opened Domain
  import opened Sections

  // ---------------------------------------------------------------------------------------
  // Sender document

  /** The pre-approval encoder writes a document only when the list holds exactly one, and
      then under the CPF key whatever the document's type; a null document writes nothing. */
  function SingleDocumentW(docs: seq<Option<Document>>): seq<Entry> {
    if |docs| == 1 && docs[0].Some? then [Entry(Named("senderCPF"), Some(docs[0].value.value))] else []
  }

  method PutSingleDocument(data: map<string, string>, docs: seq<Option<Document>>)
    returns (r: map<string, string>)
    ensures r == Apply(data, SingleDocumentW(docs))
  {
    r := data;
    if |docs| == 1 {
      for j := 0 to |docs|
        invariant r == if j == 0 || docs[0].None? then data else data["senderCPF" := docs[0].value.value]
      {
        var document := docs[j];
        if document.Some? {
          r := r["senderCPF" := document.value.value];
        }
      }
      ApplyOne(data, Entry(Named("senderCPF"), if docs[0].Some? then Some(docs[0].value.value) else None));
    }
  }

  /** The CPF key holds the value of the only document, when the list has exactly one and it
      is not null; the CNPJ key is never written. */
  lemma SingleDocumentLookup(docs: seq<Option<Document>>)
    ensures LookupKey(SingleDocumentW(docs), Named("senderCPF"))
         == if |docs| == 1 && docs[0].Some? then Some(docs[0].value.value) else None
    ensures LookupKey(SingleDocumentW(docs), Named("senderCNPJ")).None?
  {
  }

  /** The sender writes of a pre-approval: name, e-mail and phone, then the single document. */
  function PreApprovalSenderW(s: Sender): seq<Entry> {
    ContactW(s) + SingleDocumentW(Elements(s.documents))
  }

  method PutPreApprovalSender(data: map<string, string>, s: Sender) returns (r: map<string, string>)
    ensures r == Apply(data, PreApprovalSenderW(s))
  {
    r := PutContact(data, s);
    if s.documents.Some? {
      r := PutSingleDocument(r, s.documents.value);
    }
    ApplyConcat(data, ContactW(s), SingleDocumentW(Elements(s.documents)));
  }

  /** The contact keys hold the contact fields, the CPF key the single document. */
  lemma PreApprovalSenderLookup(s: Sender)
    ensures var docs := Elements(s.documents);
      LookupKey(PreApprovalSenderW(s), Named("senderCPF"))
        == if |docs| == 1 && docs[0].Some? then Some(docs[0].value.value) else None
    ensures LookupKey(PreApprovalSenderW(s), Named("senderCNPJ")).None?
    ensures LookupKey(PreApprovalSenderW(s), Named("senderName")) == s.name
    ensures LookupKey(PreApprovalSenderW(s), Named("senderEmail")) == s.email
    ensures LookupKey(PreApprovalSenderW(s), Named("senderAreaCode"))
         == if s.phone.Some? then s.phone.value.areaCode else None
    ensures LookupKey(PreApprovalSenderW(s), Named("senderPhone"))
         == if s.phone.Some? then s.phone.value.number else None
  {
    var docs := Elements(s.documents);
    ContactLookup(s);
    SingleDocumentLookup(docs);
    LookupKeyConcat(ContactW(s), SingleDocumentW(docs), Named("senderCPF"));
    LookupKeyConcat(ContactW(s), SingleDocumentW(docs), Named("senderCNPJ"));
    LookupKeyConcat(ContactW(s), SingleDocumentW(docs), Named("senderName"));
    LookupKeyConcat(ContactW(s), SingleDocumentW(docs), Named("senderEmail"));
    LookupKeyConcat(ContactW(s), SingleDocumentW(docs), Named("senderAreaCode"));
    LookupKeyConcat(ContactW(s), SingleDocumentW(docs), Named("senderPhone"));
  }

  /** The sender writes belong to the sender. */
  lemma PreApprovalSenderSection(s: Sender)
    ensures forall e | e in PreApprovalSenderW(s) :: SectionOf(e.key) == Section.Sender
  {
    ContactSection(s);
    assert SectionOf(Named("senderCPF")) == Section.Sender;
  }

  // ---------------------------------------------------------------------------------------
  // Sender address

  function SenderAddressName(f: AddressField): string {
    match f
    case Country => "senderAddressCountry"
    case State => "senderAddressState"
    case City => "senderAddressCity"
    case PostalCode => "senderAddressPostalCode"
    case District => "senderAddressDistrict"
    case Complement => "senderAddressComplement"
    case Number => "senderAddressNumber"
    case Street => "senderAddressStreet"
  }

  /** The address writes: the fields that are present, country first and street last. */
  function SenderAddressW(a: Address): seq<Entry> {
    [Entry(Named("senderAddressCountry"), a.country),
     Entry(Named("senderAddressState"), a.state),
     Entry(Named("senderAddressCity"), a.city),
     Entry(Named("senderAddressPostalCode"), a.postalCode),
     Entry(Named("senderAddressDistrict"), a.district),
     Entry(Named("senderAddressComplement"), a.complement),
     Entry(Named("senderAddressNumber"), a.number),
     Entry(Named("senderAddressStreet"), a.street)]
  }

  method PutSenderAddress(data: map<string, string>, a: Address) returns (r: map<string, string>)
    ensures r == Apply(data, SenderAddressW(a))
  {
    ghost var w := SenderAddressW(a);
    assert w[..0] == [];
    r := Put(data, data, w, 0, Named("senderAddressCountry"), a.country);
    r := Put(r, data, w, 1, Named("senderAddressState"), a.state);
    r := Put(r, data, w, 2, Named("senderAddressCity"), a.city);
    r := Put(r, data, w, 3, Named("senderAddressPostalCode"), a.postalCode);
    r := Put(r, data, w, 4, Named("senderAddressDistrict"), a.district);
    r := Put(r, data, w, 5, Named("senderAddressComplement"), a.complement);
    r := Put(r, data, w, 6, Named("senderAddressNumber"), a.number);
    r := Put(r, data, w, 7, Named("senderAddressStreet"), a.street);
    assert w[..8] == w;
  }

  /** Where a field's write stands among the address writes. */
  function SenderAddressIndex(f: AddressField): (i: nat)
    ensures i < 8
  {
    match f
    case Country => 0
    case State => 1
    case City => 2
    case PostalCode => 3
    case District => 4
    case Complement => 5
    case Number => 6
    case Street => 7
  }

  lemma SenderAddressAt(a: Address, f: AddressField)
    ensures SenderAddressW(a)[SenderAddressIndex(f)]
         == Entry(Named(SenderAddressName(f)), AddressValue(a, f))
  {
  }

  lemma SenderAddressKeysDistinct(a: Address)
    ensures KeysDistinct(SenderAddressW(a))
  {
  }

  /** Each address key holds its field when the field is present. */
  lemma SenderAddressLookup(a: Address, f: AddressField)
    ensures LookupKey(SenderAddressW(a), Named(SenderAddressName(f))) == AddressValue(a, f)
  {
    SenderAddressKeysDistinct(a);
    SenderAddressAt(a, f);
    LookupKeyDistinct(SenderAddressW(a), SenderAddressIndex(f));
  }

  /** Every address key belongs to the sender's address. */
  lemma SenderAddressKeySection(f: AddressField)
    ensures SectionOf(Named(SenderAddressName(f))) == SenderAddress
  {
  }

  lemma SenderAddressSection(a: Address)
    ensures forall e | e in SenderAddressW(a) :: SectionOf(e.key) == SenderAddress
  {
    var ws := SenderAddressW(a);
    assert forall i | 0 <= i < |ws| :: SectionOf(ws[i].key) == SenderAddress;
  }
}
