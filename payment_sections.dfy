/** The parts only the payment encoder writes: the sender's documents, the item list, the
    shipping block, the payment-method configuration list and the accepted and excluded
    payment methods.

    As in `Sections`, each part is a function giving its writes in order and a method that
    performs them on the dictionary, with lemmas saying which value every key ends up
    with. */
module PaymentSections {
  import opened Options
  import opened Keys
  import opened ParameterMap
  import opened Domain
  import opened Sections

  // ---------------------------------------------------------------------------------------
  // Sender documents

  /** The key a document is written under: the CPF key for the CPF type name, the CNPJ key
      for any other type. */
  function DocumentKey(d: Document): Key {
    if d.docType == CPF_DOCUMENT_TYPE then Named("senderCPF") else Named("senderCNPJ")
  }

  /** The writes of the document loop; a null document is skipped. */
  function DocumentsW(docs: seq<Option<Document>>): seq<Entry> {
    if docs == [] then []
    else
      var init, last := docs[..|docs| - 1], docs[|docs| - 1];
      DocumentsW(init) + (if last.Some? then [Entry(DocumentKey(last.value), Some(last.value.value))] else [])
  }

  method PutDocuments(data: map<string, string>, docs: seq<Option<Document>>)
    returns (r: map<string, string>)
    ensures r == Apply(data, DocumentsW(docs))
  {
    r := data;
    var j := 0;
    while j < |docs|
      invariant 0 <= j <= |docs|
      invariant r == Apply(data, DocumentsW(docs[..j]))
    {
      var document := docs[j];
      assert docs[..j + 1][..j] == docs[..j] && docs[..j + 1][j] == document;
      ghost var before := DocumentsW(docs[..j]);
      j := j + 1;
      if document.None? {
        assert DocumentsW(docs[..j]) == before + [] == before;
        continue;
      }
      ghost var e := Entry(DocumentKey(document.value), Some(document.value.value));
      assert DocumentsW(docs[..j]) == before + [e];
      ApplySnoc(data, before, e);
      if document.value.docType == CPF_DOCUMENT_TYPE {
        r := r["senderCPF" := document.value.value];
      } else {
        r := r["senderCNPJ" := document.value.value];
      }
    }
    assert docs[..j] == docs;
  }

  /** A document key holds the value of the last non-null document of its type: a later
      document of the same type replaces an earlier one. */
  lemma {:induction false} DocumentsLastWins(docs: seq<Option<Document>>, i: nat)
    requires i < |docs| && docs[i].Some?
    requires forall j | i < j < |docs| && docs[j].Some? :: DocumentKey(docs[j].value) != DocumentKey(docs[i].value)
    ensures LookupKey(DocumentsW(docs), DocumentKey(docs[i].value)) == Some(docs[i].value.value)
  {
    var init, last := docs[..|docs| - 1], docs[|docs| - 1];
    var k := DocumentKey(docs[i].value);
    var tail := if last.Some? then [Entry(DocumentKey(last.value), Some(last.value.value))] else [];
    LookupKeyConcat(DocumentsW(init), tail, k);
    if i < |docs| - 1 {
      DocumentsLastWins(init, i);
    }
  }

  /** A document key is written exactly when some non-null document has its type. */
  lemma {:induction false} DocumentsAbsent(docs: seq<Option<Document>>, k: Key)
    ensures LookupKey(DocumentsW(docs), k).None?
        <==> forall j | 0 <= j < |docs| && docs[j].Some? :: DocumentKey(docs[j].value) != k
  {
    if docs != [] {
      var init, last := docs[..|docs| - 1], docs[|docs| - 1];
      var tail := if last.Some? then [Entry(DocumentKey(last.value), Some(last.value.value))] else [];
      DocumentsAbsent(init, k);
      LookupKeyConcat(DocumentsW(init), tail, k);
      assert forall j | 0 <= j < |init| :: docs[j] == init[j];
    }
  }

  /** Documents write only the CPF and CNPJ keys. */
  lemma {:induction false} DocumentKeys(docs: seq<Option<Document>>)
    ensures forall e | e in DocumentsW(docs) :: e.key == Named("senderCPF") || e.key == Named("senderCNPJ")
  {
    if docs != [] {
      DocumentKeys(docs[..|docs| - 1]);
    }
  }

  /** The sender writes of a payment: name, e-mail and phone, then the documents. */
  function SenderW(s: Sender): seq<Entry> {
    ContactW(s) + DocumentsW(Elements(s.documents))
  }

  method PutSender(data: map<string, string>, s: Sender) returns (r: map<string, string>)
    ensures r == Apply(data, SenderW(s))
  {
    r := PutContact(data, s);
    if s.documents.Some? {
      r := PutDocuments(r, s.documents.value);
    } else {
      assert DocumentsW([]) == [];
    }
    ApplyConcat(data, ContactW(s), DocumentsW(Elements(s.documents)));
  }

  /** The sender writes belong to the sender. */
  lemma SenderSection(s: Sender)
    ensures forall e | e in SenderW(s) :: SectionOf(e.key) == Section.Sender
  {
    ContactSection(s);
    DocumentKeys(Elements(s.documents));
  }

  // ---------------------------------------------------------------------------------------
  // Items

  /** The fields of an item, each written under its own key prefix. */
  datatype ItemField = Id | Description | Quantity | Amount | Weight | ShippingCost

  function ItemPrefix(f: ItemField): string {
    match f
    case Id => "itemId"
    case Description => "itemDescription"
    case Quantity => "itemQuantity"
    case Amount => "itemAmount"
    case Weight => "itemWeight"
    case ShippingCost => "itemShippingCost"
  }

  /** The value an item gives a field's key: quantity and amount always, the id,
      description, weight and shipping cost only when present. */
  function ItemValue(item: Item, f: ItemField, fmt: Formatters): Option<string> {
    match f
    case Id => item.id
    case Description => item.description
    case Quantity => Some(fmt.integer(item.quantity))
    case Amount => Some(fmt.decimal(item.amount))
    case Weight => IntText(item.weight, fmt)
    case ShippingCost => DecimalText(item.shippingCost, fmt)
  }

  /** The writes for the `n`-th item, in the order of the loop body. */
  function ItemW(item: Item, n: nat, fmt: Formatters): seq<Entry> {
    [Entry(Indexed("itemId", n), item.id),
     Entry(Indexed("itemDescription", n), item.description),
     Entry(Indexed("itemQuantity", n), Some(fmt.integer(item.quantity))),
     Entry(Indexed("itemAmount", n), Some(fmt.decimal(item.amount))),
     Entry(Indexed("itemWeight", n), IntText(item.weight, fmt)),
     Entry(Indexed("itemShippingCost", n), DecimalText(item.shippingCost, fmt))]
  }

  /** The writes of the item loop; the `n`-th item, counting from 1, uses index `n`. */
  function ItemsW(items: seq<Item>, fmt: Formatters): seq<Entry> {
    if items == [] then []
    else ItemsW(items[..|items| - 1], fmt) + ItemW(items[|items| - 1], |items|, fmt)
  }

  method PutItems(data: map<string, string>, items: seq<Item>, fmt: Formatters)
    returns (r: map<string, string>)
    ensures r == Apply(data, ItemsW(items, fmt))
  {
    r := data;
    var i := 0;
    while i < |items|
      invariant 0 <= i <= |items|
      invariant r == Apply(data, ItemsW(items[..i], fmt))
    {
      var item := items[i];
      ghost var before := ItemsW(items[..i], fmt);
      assert items[..i + 1][..i] == items[..i] && items[..i + 1][i] == item;
      i := i + 1;
      r := PutItem(r, item, i, fmt);
      ApplyConcat(data, before, ItemW(item, i, fmt));
    }
    assert items[..i] == items;
  }

  /** The body of the item loop for the `i`-th item. */
  method PutItem(data: map<string, string>, item: Item, i: nat, fmt: Formatters)
    returns (r: map<string, string>)
    ensures r == Apply(data, ItemW(item, i, fmt))
  {
    ghost var w := ItemW(item, i, fmt);
    assert w[..0] == [];
    r := Put(data, data, w, 0, Indexed("itemId", i), item.id);
    r := Put(r, data, w, 1, Indexed("itemDescription", i), item.description);
    r := Put(r, data, w, 2, Indexed("itemQuantity", i), Some(fmt.integer(item.quantity)));
    r := Put(r, data, w, 3, Indexed("itemAmount", i), Some(fmt.decimal(item.amount)));
    r := Put(r, data, w, 4, Indexed("itemWeight", i), IntText(item.weight, fmt));
    r := Put(r, data, w, 5, Indexed("itemShippingCost", i), DecimalText(item.shippingCost, fmt));
    assert w[..6] == w;
  }

  /** The keys of one item hold its fields at its own index and nothing elsewhere. */
  lemma ItemEntryLookup(item: Item, n: nat, fmt: Formatters, f: ItemField, j: nat)
    ensures LookupKey(ItemW(item, n, fmt), Indexed(ItemPrefix(f), j))
         == if j == n then ItemValue(item, f, fmt) else None
  {
    var ws := ItemW(item, n, fmt);
    if j == n {
      assert KeysDistinct(ws);
      match f
      case Id => LookupKeyDistinct(ws, 0);
      case Description => LookupKeyDistinct(ws, 1);
      case Quantity => LookupKeyDistinct(ws, 2);
      case Amount => LookupKeyDistinct(ws, 3);
      case Weight => LookupKeyDistinct(ws, 4);
      case ShippingCost => LookupKeyDistinct(ws, 5);
    } else {
      assert forall e | e in ws :: e.key != Indexed(ItemPrefix(f), j);
    }
  }

  /** The item keys with index `j` hold the writes of the `j`-th item, for `j` from 1 to the
      number of items, and nothing for any other `j`. */
  lemma {:induction false} ItemsIndexed(items: seq<Item>, fmt: Formatters, f: ItemField, j: nat)
    ensures LookupKey(ItemsW(items, fmt), Indexed(ItemPrefix(f), j))
         == if 1 <= j <= |items| then LookupKey(ItemW(items[j - 1], j, fmt), Indexed(ItemPrefix(f), j)) else None
  {
    if items != [] {
      var init, last := items[..|items| - 1], items[|items| - 1];
      var k := Indexed(ItemPrefix(f), j);
      assert ItemsW(items, fmt) == ItemsW(init, fmt) + ItemW(last, |items|, fmt);
      LookupKeyConcat(ItemsW(init, fmt), ItemW(last, |items|, fmt), k);
      ItemsIndexed(init, fmt, f, j);
      ItemEntryLookup(last, |items|, fmt, f, j);
      if 1 <= j < |items| {
        assert items[j - 1] == init[j - 1];
      }
    }
  }

  /** For `n` items, the quantity and amount keys exist for every index from 1 to `n`; the
      id, description, weight and shipping-cost keys exist for the items that have those
      fields; no item key exists for any other index. */
  lemma ItemsLookup(items: seq<Item>, fmt: Formatters, f: ItemField, j: nat)
    ensures LookupKey(ItemsW(items, fmt), Indexed(ItemPrefix(f), j))
         == if 1 <= j <= |items| then ItemValue(items[j - 1], f, fmt) else None
  {
    ItemsIndexed(items, fmt, f, j);
    if 1 <= j <= |items| {
      ItemEntryLookup(items[j - 1], j, fmt, f, j);
    }
  }

  /** The item writes belong to the items. */
  lemma {:induction false} ItemsSection(items: seq<Item>, fmt: Formatters)
    ensures forall e | e in ItemsW(items, fmt) :: SectionOf(e.key) == Section.Items
  {
    if items != [] {
      var init := items[..|items| - 1];
      ItemsSection(init, fmt);
      ItemSection(items[|items| - 1], |items|, fmt);
      assert ItemsW(items, fmt) == ItemsW(init, fmt) + ItemW(items[|items| - 1], |items|, fmt);
    }
  }

  /** Every item key belongs to the items section, whatever its index. */
  lemma ItemKeySection(f: ItemField, j: nat)
    ensures SectionOf(Indexed(ItemPrefix(f), j)) == Section.Items
  {
    match f
    case Id =>
    case Description =>
    case Quantity =>
    case Amount =>
    case Weight =>
    case ShippingCost =>
  }

  lemma ItemSection(item: Item, n: nat, fmt: Formatters)
    ensures forall e | e in ItemW(item, n, fmt) :: SectionOf(e.key) == Section.Items
  {
    var ws := ItemW(item, n, fmt);
    assert forall i | 0 <= i < |ws| :: SectionOf(ws[i].key) == Section.Items;
  }

  // ---------------------------------------------------------------------------------------
  // Shipping

  function ShippingAddressName(f: AddressField): string {
    match f
    case Street => "shippingAddressStreet"
    case Number => "shippingAddressNumber"
    case Complement => "shippingAddressComplement"
    case City => "shippingAddressCity"
    case State => "shippingAddressState"
    case District => "shippingAddressDistrict"
    case PostalCode => "shippingAddressPostalCode"
    case Country => "shippingAddressCountry"
  }

  /** The shipping writes: type and cost when present, then the address fields that are
      present, street first and country last. */
  function ShippingW(sh: Shipping, fmt: Formatters): seq<Entry> {
    ShippingHeadW(sh, fmt) + (if sh.address.Some? then ShippingAddressW(sh.address.value) else [])
  }

  function ShippingHeadW(sh: Shipping, fmt: Formatters): seq<Entry> {
    [Entry(Named("shippingType"),
           if sh.shippingType.Some? then Some(fmt.shippingType(sh.shippingType.value)) else None),
     Entry(Named("shippingCost"), DecimalText(sh.cost, fmt))]
  }

  function ShippingAddressW(a: Address): seq<Entry> {
    [Entry(Named("shippingAddressStreet"), a.street),
     Entry(Named("shippingAddressNumber"), a.number),
     Entry(Named("shippingAddressComplement"), a.complement),
     Entry(Named("shippingAddressCity"), a.city),
     Entry(Named("shippingAddressState"), a.state),
     Entry(Named("shippingAddressDistrict"), a.district),
     Entry(Named("shippingAddressPostalCode"), a.postalCode),
     Entry(Named("shippingAddressCountry"), a.country)]
  }

  method PutShipping(data: map<string, string>, sh: Shipping, fmt: Formatters)
    returns (r: map<string, string>)
    ensures r == Apply(data, ShippingW(sh, fmt))
  {
    ghost var w := ShippingHeadW(sh, fmt);
    assert w[..0] == [];
    r := Put(data, data, w, 0, Named("shippingType"),
             if sh.shippingType.Some? then Some(fmt.shippingType(sh.shippingType.value)) else None);
    r := Put(r, data, w, 1, Named("shippingCost"), DecimalText(sh.cost, fmt));
    assert w[..2] == w;
    if sh.address.Some? {
      r := PutShippingAddress(r, sh.address.value);
      ApplyConcat(data, w, ShippingAddressW(sh.address.value));
    } else {
      assert w + [] == w;
    }
  }

  method PutShippingAddress(data: map<string, string>, a: Address) returns (r: map<string, string>)
    ensures r == Apply(data, ShippingAddressW(a))
  {
    ghost var w := ShippingAddressW(a);
    assert w[..0] == [];
    r := Put(data, data, w, 0, Named("shippingAddressStreet"), a.street);
    r := Put(r, data, w, 1, Named("shippingAddressNumber"), a.number);
    r := Put(r, data, w, 2, Named("shippingAddressComplement"), a.complement);
    r := Put(r, data, w, 3, Named("shippingAddressCity"), a.city);
    r := Put(r, data, w, 4, Named("shippingAddressState"), a.state);
    r := Put(r, data, w, 5, Named("shippingAddressDistrict"), a.district);
    r := Put(r, data, w, 6, Named("shippingAddressPostalCode"), a.postalCode);
    r := Put(r, data, w, 7, Named("shippingAddressCountry"), a.country);
    assert w[..8] == w;
  }

  /** Where a field's write stands among the address writes. */
  function ShippingAddressIndex(f: AddressField): (i: nat)
    ensures i < 8
  {
    match f
    case Street => 0
    case Number => 1
    case Complement => 2
    case City => 3
    case State => 4
    case District => 5
    case PostalCode => 6
    case Country => 7
  }

  lemma ShippingAddressAt(a: Address, f: AddressField)
    ensures ShippingAddressW(a)[ShippingAddressIndex(f)]
         == Entry(Named(ShippingAddressName(f)), AddressValue(a, f))
  {
  }

  lemma ShippingAddressKeysDistinct(a: Address)
    ensures KeysDistinct(ShippingAddressW(a))
  {
  }

  /** Each address key holds its field when the field is present. */
  lemma ShippingAddressLookup(a: Address, f: AddressField)
    ensures LookupKey(ShippingAddressW(a), Named(ShippingAddressName(f))) == AddressValue(a, f)
  {
    ShippingAddressKeysDistinct(a);
    ShippingAddressAt(a, f);
    LookupKeyDistinct(ShippingAddressW(a), ShippingAddressIndex(f));
  }

  /** The shipping type and cost keys hold the rendered type and cost when present; an
      address key holds its field when the address and the field are present. */
  lemma ShippingLookup(sh: Shipping, fmt: Formatters, f: AddressField)
    ensures LookupKey(ShippingW(sh, fmt), Named("shippingType"))
         == if sh.shippingType.Some? then Some(fmt.shippingType(sh.shippingType.value)) else None
    ensures LookupKey(ShippingW(sh, fmt), Named("shippingCost")) == DecimalText(sh.cost, fmt)
    ensures LookupKey(ShippingW(sh, fmt), Named(ShippingAddressName(f)))
         == if sh.address.Some? then AddressValue(sh.address.value, f) else None
  {
    var head := ShippingHeadW(sh, fmt);
    var tail := if sh.address.Some? then ShippingAddressW(sh.address.value) else [];
    assert KeysDistinct(head);
    LookupKeyDistinct(head, 0);
    LookupKeyDistinct(head, 1);
    LookupKeyConcat(head, tail, Named("shippingType"));
    LookupKeyConcat(head, tail, Named("shippingCost"));
    LookupKeyConcat(head, tail, Named(ShippingAddressName(f)));
    ShippingAddressNameNotHead(f);
    if sh.address.Some? {
      ShippingAddressLookup(sh.address.value, f);
      ShippingAddressNoHead(sh.address.value);
    }
  }

  lemma ShippingAddressNameNotHead(f: AddressField)
    ensures ShippingAddressName(f) != "shippingType" && ShippingAddressName(f) != "shippingCost"
  {
  }

  lemma ShippingAddressNoHead(a: Address)
    ensures LookupKey(ShippingAddressW(a), Named("shippingType")).None?
    ensures LookupKey(ShippingAddressW(a), Named("shippingCost")).None?
  {
    var ws := ShippingAddressW(a);
    assert forall i | 0 <= i < |ws| :: ws[i].key != Named("shippingType") && ws[i].key != Named("shippingCost");
  }

  /** The shipping writes belong to the shipping. */
  lemma ShippingSection(sh: Shipping, fmt: Formatters)
    ensures forall e | e in ShippingW(sh, fmt) :: SectionOf(e.key) == Section.Shipping
  {
    var head := ShippingHeadW(sh, fmt);
    assert forall i | 0 <= i < |head| :: SectionOf(head[i].key) == Section.Shipping;
    if sh.address.Some? {
      ShippingAddressSection(sh.address.value);
    }
  }

  lemma ShippingAddressSection(a: Address)
    ensures forall e | e in ShippingAddressW(a) :: SectionOf(e.key) == Section.Shipping
  {
    var ws := ShippingAddressW(a);
    assert forall i | 0 <= i < |ws| :: SectionOf(ws[i].key) == Section.Shipping;
  }

  // ---------------------------------------------------------------------------------------
  // Payment-method configuration

  /** An entry is emitted only when neither its key nor its group is blank. */
  predicate ConfigKept(c: PaymentMethodConfigItem, fmt: Formatters) {
    !Blank(c.key, fmt) && !Blank(c.group, fmt)
  }

  /** The configured value: in decimal form for the discount-percent key, with its fraction
      dropped for every other key. */
  function ConfigValueText(c: PaymentMethodConfigItem, fmt: Formatters): string {
    if c.key == Some(DISCOUNT_PERCENT) then fmt.decimal(c.value) else fmt.doubleToInt(c.value)
  }

  /** The entries that are emitted, in order. */
  function KeptConfig(items: seq<PaymentMethodConfigItem>, fmt: Formatters): seq<PaymentMethodConfigItem> {
    if items == [] then []
    else
      var init, last := items[..|items| - 1], items[|items| - 1];
      if ConfigKept(last, fmt) then KeptConfig(init, fmt) + [last] else KeptConfig(init, fmt)
  }

  /** The emitted entries are exactly the entries with a key and a group that are not
      blank. */
  lemma {:induction false} KeptConfigMembers(items: seq<PaymentMethodConfigItem>, fmt: Formatters)
    ensures |KeptConfig(items, fmt)| <= |items|
    ensures forall i | 0 <= i < |KeptConfig(items, fmt)| :: ConfigKept(KeptConfig(items, fmt)[i], fmt)
    ensures forall c | c in KeptConfig(items, fmt) :: c in items
    ensures forall c | c in items && ConfigKept(c, fmt) :: c in KeptConfig(items, fmt)
  {
    if items != [] {
      var init, last := items[..|items| - 1], items[|items| - 1];
      KeptConfigMembers(init, fmt);
      assert items == init + [last];
    }
  }

  /** Filtering keeps the order of the entries: the entries emitted from two runs of
      entries are those of the first run followed by those of the second. */
  lemma {:induction false} KeptConfigConcat(a: seq<PaymentMethodConfigItem>, b: seq<PaymentMethodConfigItem>, fmt: Formatters)
    ensures KeptConfig(a + b, fmt) == KeptConfig(a, fmt) + KeptConfig(b, fmt)
    decreases |b|
  {
    if b == [] {
      assert a + b == a;
    } else {
      var init, last := b[..|b| - 1], b[|b| - 1];
      assert (a + b)[..|a + b| - 1] == a + init;
      assert (a + b)[|a + b| - 1] == last;
      KeptConfigConcat(a, init, fmt);
    }
  }

  /** The writes for the `n`-th emitted entry. */
  function ConfigEntryW(c: PaymentMethodConfigItem, n: nat, fmt: Formatters): seq<Entry> {
    [Entry(Indexed("paymentMethodGroup", n), c.group),
     Entry(SubIndexed("paymentMethodConfigKey", n), c.key),
     Entry(SubIndexed("paymentMethodConfigValue", n), Some(ConfigValueText(c, fmt)))]
  }

  /** The writes of the configuration loop: the counter advances only for emitted
      entries. */
  function ConfigW(items: seq<PaymentMethodConfigItem>, fmt: Formatters): seq<Entry> {
    if items == [] then []
    else
      var init, last := items[..|items| - 1], items[|items| - 1];
      if ConfigKept(last, fmt) then ConfigW(init, fmt) + ConfigEntryW(last, |KeptConfig(init, fmt)| + 1, fmt)
      else ConfigW(init, fmt)
  }

  /** One more step of the configuration loop. */
  lemma ConfigStep(items: seq<PaymentMethodConfigItem>, j: nat, fmt: Formatters)
    requires j < |items|
    ensures KeptConfig(items[..j + 1], fmt)
         == KeptConfig(items[..j], fmt) + (if ConfigKept(items[j], fmt) then [items[j]] else [])
    ensures ConfigW(items[..j + 1], fmt)
         == ConfigW(items[..j], fmt)
            + (if ConfigKept(items[j], fmt)
               then ConfigEntryW(items[j], |KeptConfig(items[..j], fmt)| + 1, fmt) else [])
  {
    assert items[..j + 1][..j] == items[..j];
  }

  method PutConfig(data: map<string, string>, items: seq<PaymentMethodConfigItem>, fmt: Formatters)
    returns (r: map<string, string>)
    ensures r == Apply(data, ConfigW(items, fmt))
  {
    r := data;
    var i := 0;
    var j := 0;
    while j < |items|
      invariant 0 <= j <= |items|
      invariant i == |KeptConfig(items[..j], fmt)|
      invariant r == Apply(data, ConfigW(items[..j], fmt))
    {
      var item := items[j];
      ConfigStep(items, j, fmt);
      ghost var before := ConfigW(items[..j], fmt);
      j := j + 1;
      if Blank(item.key, fmt) || Blank(item.group, fmt) {
        assert !ConfigKept(item, fmt) && before + [] == before;
        continue;
      }
      i := i + 1;
      ghost var w := before + ConfigEntryW(item, i, fmt);
      ghost var n := |before|;
      assert w[..n] == before;
      r := Put(r, data, w, n, Indexed("paymentMethodGroup", i), item.group);
      r := Put(r, data, w, n + 1, SubIndexed("paymentMethodConfigKey", i), item.key);
      if item.key.value == DISCOUNT_PERCENT {
        r := Put(r, data, w, n + 2, SubIndexed("paymentMethodConfigValue", i), Some(fmt.decimal(item.value)));
      } else {
        r := Put(r, data, w, n + 2, SubIndexed("paymentMethodConfigValue", i), Some(fmt.doubleToInt(item.value)));
      }
      assert w[..n + 3] == w;
      assert ConfigKept(item, fmt) && w == ConfigW(items[..j], fmt);
    }
    assert items[..j] == items;
  }

  /** The keys of one emitted entry hold its fields at its own index and nothing elsewhere. */
  lemma ConfigEntryLookup(c: PaymentMethodConfigItem, n: nat, fmt: Formatters, j: nat)
    ensures LookupKey(ConfigEntryW(c, n, fmt), Indexed("paymentMethodGroup", j))
         == if j == n then c.group else None
    ensures LookupKey(ConfigEntryW(c, n, fmt), SubIndexed("paymentMethodConfigKey", j))
         == if j == n then c.key else None
    ensures LookupKey(ConfigEntryW(c, n, fmt), SubIndexed("paymentMethodConfigValue", j))
         == if j == n then Some(ConfigValueText(c, fmt)) else None
  {
    var ws := ConfigEntryW(c, n, fmt);
    assert KeysDistinct(ws);
    LookupKeyDistinct(ws, 0);
    LookupKeyDistinct(ws, 1);
    LookupKeyDistinct(ws, 2);
  }

  /** The `j`-th emitted entry writes its group, its key and its value under index `j`, for
      `j` from 1 to the number of emitted entries; no configuration key exists for any other
      index. */
  lemma {:induction false} ConfigLookup(items: seq<PaymentMethodConfigItem>, fmt: Formatters, j: nat)
    ensures var kept := KeptConfig(items, fmt);
      LookupKey(ConfigW(items, fmt), Indexed("paymentMethodGroup", j))
        == (if 1 <= j <= |kept| then kept[j - 1].group else None)
    ensures var kept := KeptConfig(items, fmt);
      LookupKey(ConfigW(items, fmt), SubIndexed("paymentMethodConfigKey", j))
        == (if 1 <= j <= |kept| then kept[j - 1].key else None)
    ensures var kept := KeptConfig(items, fmt);
      LookupKey(ConfigW(items, fmt), SubIndexed("paymentMethodConfigValue", j))
        == (if 1 <= j <= |kept| then Some(ConfigValueText(kept[j - 1], fmt)) else None)
  {
    if items != [] {
      var init, last := items[..|items| - 1], items[|items| - 1];
      ConfigLookup(init, fmt, j);
      if ConfigKept(last, fmt) {
        var n := |KeptConfig(init, fmt)| + 1;
        var tail := ConfigEntryW(last, n, fmt);
        ConfigEntryLookup(last, n, fmt, j);
        LookupKeyConcat(ConfigW(init, fmt), tail, Indexed("paymentMethodGroup", j));
        LookupKeyConcat(ConfigW(init, fmt), tail, SubIndexed("paymentMethodConfigKey", j));
        LookupKeyConcat(ConfigW(init, fmt), tail, SubIndexed("paymentMethodConfigValue", j));
      }
    }
  }

  /** The configuration writes belong to the configuration. */
  lemma {:induction false} ConfigSection(items: seq<PaymentMethodConfigItem>, fmt: Formatters)
    ensures forall e | e in ConfigW(items, fmt) :: SectionOf(e.key) == Section.PaymentMethodConfig
  {
    if items != [] {
      var init, last := items[..|items| - 1], items[|items| - 1];
      ConfigSection(init, fmt);
      if ConfigKept(last, fmt) {
        var tail := ConfigEntryW(last, |KeptConfig(init, fmt)| + 1, fmt);
        assert forall i | 0 <= i < |tail| :: SectionOf(tail[i].key) == Section.PaymentMethodConfig;
      }
    }
  }

  // ---------------------------------------------------------------------------------------
  // Accepted and excluded payment methods

  /** The groups of the entries of one kind, each once, in the order they are first seen,
      as the loop's `Contains` test followed by `Add` collects them. */
  function KindGroups(ms: seq<PaymentMethod>, kind: MethodKind): seq<string> {
    if ms == [] then []
    else
      var g, last := KindGroups(ms[..|ms| - 1], kind), ms[|ms| - 1];
      if last.kind == kind && last.group !in g then g + [last.group] else g
  }

  /** The name list of the last entry of one kind, or the empty list when there is none: each
      entry replaces the list the previous one left. */
  function KindNames(ms: seq<PaymentMethod>, kind: MethodKind): seq<string> {
    if ms == [] then []
    else if ms[|ms| - 1].kind == kind then ms[|ms| - 1].names
    else KindNames(ms[..|ms| - 1], kind)
  }

  /** The collected groups are exactly the groups of the entries of that kind. */
  lemma {:induction false} KindGroupsMembers(ms: seq<PaymentMethod>, kind: MethodKind)
    ensures forall i | 0 <= i < |ms| && ms[i].kind == kind :: ms[i].group in KindGroups(ms, kind)
    ensures forall g | g in KindGroups(ms, kind) ::
      exists i | 0 <= i < |ms| :: ms[i].kind == kind && ms[i].group == g
  {
    if ms != [] {
      var init := ms[..|ms| - 1];
      KindGroupsMembers(init, kind);
      assert forall i | 0 <= i < |init| :: ms[i] == init[i];
      forall g | g in KindGroups(ms, kind)
        ensures exists i | 0 <= i < |ms| :: ms[i].kind == kind && ms[i].group == g
      {
        if g !in KindGroups(init, kind) {
          assert ms[|ms| - 1].kind == kind && ms[|ms| - 1].group == g;
        } else {
          var i :| 0 <= i < |init| && init[i].kind == kind && init[i].group == g;
          assert ms[i] == init[i];
        }
      }
    }
  }

  /** No group is collected twice. */
  lemma {:induction false} KindGroupsDistinct(ms: seq<PaymentMethod>, kind: MethodKind)
    ensures forall a, b | 0 <= a < b < |KindGroups(ms, kind)| ::
      KindGroups(ms, kind)[a] != KindGroups(ms, kind)[b]
  {
    if ms != [] {
      KindGroupsDistinct(ms[..|ms| - 1], kind);
    }
  }

  /** The groups come in first-seen order: whenever an entry of the kind carries a group,
      every group collected before it was already carried by an earlier entry. */
  lemma {:induction false} KindGroupsOrder(ms: seq<PaymentMethod>, kind: MethodKind)
    ensures forall a, b, k | 0 <= a < b < |KindGroups(ms, kind)| && 0 <= k < |ms|
        && ms[k].kind == kind && ms[k].group == KindGroups(ms, kind)[b] ::
      KindGroups(ms, kind)[a] in KindGroups(ms[..k], kind)
  {
    if ms != [] {
      var init := ms[..|ms| - 1];
      var d, d' := KindGroups(ms, kind), KindGroups(init, kind);
      KindGroupsOrder(init, kind);
      KindGroupsMembers(init, kind);
      assert forall i | 0 <= i < |init| :: ms[i] == init[i];
      assert forall k | 0 <= k < |init| :: ms[..k] == init[..k];
      assert ms[..|init|] == init;
      forall a, b, k | 0 <= a < b < |d| && 0 <= k < |ms| && ms[k].kind == kind && ms[k].group == d[b]
        ensures d[a] in KindGroups(ms[..k], kind)
      {
        assert a < |d'| && d[a] == d'[a];
        if k < |init| {
          assert init[k].group in d';
        }
      }
    }
  }

  /** The surviving name list is the list of the last entry of the kind. */
  lemma {:induction false} KindNamesLast(ms: seq<PaymentMethod>, kind: MethodKind, i: nat)
    requires i < |ms| && ms[i].kind == kind
    requires forall j | i < j < |ms| :: ms[j].kind != kind
    ensures KindNames(ms, kind) == ms[i].names
  {
    if i < |ms| - 1 {
      KindNamesLast(ms[..|ms| - 1], kind, i);
    }
  }

  /** With no entry of the kind, the name list stays empty. */
  lemma {:induction false} KindNamesNone(ms: seq<PaymentMethod>, kind: MethodKind)
    requires forall j | 0 <= j < |ms| :: ms[j].kind != kind
    ensures KindNames(ms, kind) == []
  {
    if ms != [] {
      KindNamesNone(ms[..|ms| - 1], kind);
    }
  }

  /** `string.Join(",", xs)`: the elements separated by commas, empty for no elements. */
  function Join(xs: seq<string>): string {
    if |xs| == 0 then ""
    else if |xs| == 1 then xs[0]
    else Join(xs[..|xs| - 1]) + "," + xs[|xs| - 1]
  }

  /** Cutting a string at every comma, the inverse the gateway applies to a joined list. */
  function Split(s: string): (r: seq<string>)
    ensures |r| >= 1
  {
    if s == [] then [""]
    else
      var p, c := Split(s[..|s| - 1]), s[|s| - 1];
      if c == ',' then p + [""] else p[..|p| - 1] + [p[|p| - 1] + [c]]
  }

  /** Text without commas extends the last piece. */
  lemma {:induction false} SplitPlain(s: string, t: string)
    requires ',' !in t
    ensures Split(s + t) == Split(s)[..|Split(s)| - 1] + [Split(s)[|Split(s)| - 1] + t]
  {
    if t == [] {
      var p := Split(s);
      assert s + t == s && p[|p| - 1] + t == p[|p| - 1];
      assert p == p[..|p| - 1] + [p[|p| - 1]];
    } else {
      var t', c := t[..|t| - 1], t[|t| - 1];
      assert t == t' + [c];
      assert (s + t)[..|s + t| - 1] == s + t';
      assert c in t;
      SplitPlain(s, t');
      var q := Split(s + t');
      assert q[..|q| - 1] == Split(s)[..|Split(s)| - 1];
      assert q[|q| - 1] == Split(s)[|Split(s)| - 1] + t';
      assert Split(s)[|Split(s)| - 1] + t' + [c] == Split(s)[|Split(s)| - 1] + t;
    }
  }

  /** A comma closes the last piece and opens an empty one. */
  lemma SplitComma(s: string)
    ensures Split(s + ",") == Split(s) + [""]
  {
    assert (s + ",")[..|s|] == s;
  }

  /** A list whose elements hold no comma is recovered from its joined form. */
  lemma {:induction false} SplitJoin(xs: seq<string>)
    requires |xs| >= 1
    requires forall i | 0 <= i < |xs| :: ',' !in xs[i]
    ensures Split(Join(xs)) == xs
  {
    if |xs| == 1 {
      SplitPlain("", xs[0]);
      assert "" + xs[0] == xs[0];
      assert xs == [xs[0]];
    } else {
      var init, last := xs[..|xs| - 1], xs[|xs| - 1];
      assert forall i | 0 <= i < |init| :: init[i] == xs[i];
      SplitJoin(init);
      var s := Join(init) + ",";
      SplitComma(Join(init));
      var p := init + [""];
      assert Split(s) == p;
      assert ',' !in last;
      SplitPlain(s, last);
      assert Join(xs) == s + last;
      assert p[..|p| - 1] == init && p[|p| - 1] + last == last;
      assert xs == init + [last];
    }
  }

  /** The accept writes and then the exclude writes; each pair is written only when both the
      collected groups and the surviving names are non-empty. */
  function AcceptedW(ms: seq<PaymentMethod>): seq<Entry> {
    var ag, an := KindGroups(ms, Accept), KindNames(ms, Accept);
    var eg, en := KindGroups(ms, Exclude), KindNames(ms, Exclude);
    var accept, exclude := |ag| > 0 && |an| > 0, |eg| > 0 && |en| > 0;
    [Entry(Named("acceptPaymentMethodGroup"), if accept then Some(Join(ag)) else None),
     Entry(Named("acceptPaymentMethodName"), if accept then Some(Join(an)) else None),
     Entry(Named("excludePaymentMethodGroup"), if exclude then Some(Join(eg)) else None),
     Entry(Named("excludePaymentMethodName"), if exclude then Some(Join(en)) else None)]
  }

  /** One pass over the methods, gathering the groups and the last name list of each kind. */
  method CollectMethods(ms: seq<PaymentMethod>)
    returns (acceptGroups: seq<string>, acceptNames: seq<string>, excludeGroups: seq<string>, excludeNames: seq<string>)
    ensures acceptGroups == KindGroups(ms, Accept) && acceptNames == KindNames(ms, Accept)
    ensures excludeGroups == KindGroups(ms, Exclude) && excludeNames == KindNames(ms, Exclude)
  {
    acceptGroups, acceptNames, excludeGroups, excludeNames := [], [], [], [];
    var j := 0;
    while j < |ms|
      invariant 0 <= j <= |ms|
      invariant acceptGroups == KindGroups(ms[..j], Accept)
      invariant acceptNames == KindNames(ms[..j], Accept)
      invariant excludeGroups == KindGroups(ms[..j], Exclude)
      invariant excludeNames == KindNames(ms[..j], Exclude)
    {
      var item := ms[j];
      assert ms[..j + 1][..j] == ms[..j] && ms[..j + 1][j] == item;
      if item.kind == Accept {
        if item.group !in acceptGroups {
          acceptGroups := acceptGroups + [item.group];
        }
        acceptNames := item.names;
      }
      if item.kind == Exclude {
        if item.group !in excludeGroups {
          excludeGroups := excludeGroups + [item.group];
        }
        excludeNames := item.names;
      }
      j := j + 1;
    }
    assert ms[..j] == ms;
  }

  method PutAccepted(data: map<string, string>, ms: seq<PaymentMethod>) returns (r: map<string, string>)
    ensures r == Apply(data, AcceptedW(ms))
  {
    var acceptGroups, acceptNames, excludeGroups, excludeNames := CollectMethods(ms);
    ghost var w := AcceptedW(ms);
    assert w[..0] == [];
    r := PutMethodPair(data, data, w, 0, Named("acceptPaymentMethodGroup"), Named("acceptPaymentMethodName"),
                       acceptGroups, acceptNames);
    r := PutMethodPair(r, data, w, 2, Named("excludePaymentMethodGroup"), Named("excludePaymentMethodName"),
                       excludeGroups, excludeNames);
    assert w[..4] == w;
  }

  /** The group and name writes of one kind: both joined lists when both are non-empty,
      nothing otherwise. */
  method PutMethodPair(m: map<string, string>, ghost data: map<string, string>, ghost w: seq<Entry>, ghost n: nat,
                       groupKey: Key, nameKey: Key, groups: seq<string>, names: seq<string>)
    returns (r: map<string, string>)
    requires n + 1 < |w| && m == Apply(data, w[..n])
    requires w[n] == Entry(groupKey, if |groups| > 0 && |names| > 0 then Some(Join(groups)) else None)
    requires w[n + 1] == Entry(nameKey, if |groups| > 0 && |names| > 0 then Some(Join(names)) else None)
    ensures r == Apply(data, w[..n + 2])
  {
    if |groups| > 0 && |names| > 0 {
      r := Put(m, data, w, n, groupKey, Some(Join(groups)));
      r := Put(r, data, w, n + 1, nameKey, Some(Join(names)));
    } else {
      r := m;
      Skip(r, data, w, n);
      Skip(r, data, w, n + 1);
    }
  }

  lemma AcceptedKeysDistinct(ms: seq<PaymentMethod>)
    ensures KeysDistinct(AcceptedW(ms))
  {
  }

  /** The accept keys hold the joined groups and names when both are non-empty and are
      absent otherwise; likewise the exclude keys. */
  lemma AcceptedLookup(ms: seq<PaymentMethod>)
    ensures var ag, an := KindGroups(ms, Accept), KindNames(ms, Accept);
      && LookupKey(AcceptedW(ms), Named("acceptPaymentMethodGroup"))
           == (if |ag| > 0 && |an| > 0 then Some(Join(ag)) else None)
      && LookupKey(AcceptedW(ms), Named("acceptPaymentMethodName"))
           == (if |ag| > 0 && |an| > 0 then Some(Join(an)) else None)
    ensures var eg, en := KindGroups(ms, Exclude), KindNames(ms, Exclude);
      && LookupKey(AcceptedW(ms), Named("excludePaymentMethodGroup"))
           == (if |eg| > 0 && |en| > 0 then Some(Join(eg)) else None)
      && LookupKey(AcceptedW(ms), Named("excludePaymentMethodName"))
           == (if |eg| > 0 && |en| > 0 then Some(Join(en)) else None)
  {
    var ws := AcceptedW(ms);
    AcceptedKeysDistinct(ms);
    LookupKeyDistinct(ws, 0);
    LookupKeyDistinct(ws, 1);
    LookupKeyDistinct(ws, 2);
    LookupKeyDistinct(ws, 3);
  }

  /** The accept and exclude writes belong to the payment-method lists. */
  lemma AcceptedSection(ms: seq<PaymentMethod>)
    ensures forall e | e in AcceptedW(ms) :: SectionOf(e.key) == Section.AcceptedPaymentMethods
  {
    var ws := AcceptedW(ms);
    assert forall i | 0 <= i < |ws| :: SectionOf(ws[i].key) == Section.AcceptedPaymentMethods;
  }
}
