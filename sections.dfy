/** The parts of a request that both encoders write in the same way: the sender's contact
    details, the pre-approval terms, the metadata list and the caller's pass-through
    parameters.

    Each part is described twice. A function gives the writes it performs, in order, as a
    sequence of `Entry` values; a method performs them on the dictionary, the way the
    encoders do, and promises that its result is the dictionary after those writes. Lemmas
    then say which value every key of the part ends up with. */
module Sections {
  import opened Options
  import opened Keys
  import opened ParameterMap
  import opened Domain

  /** `if (value != null) data[key] = value;` as the `n`-th of the writes `target`. An
      unconditional write passes `Some(value)`. */
  method Put(m: map<string, string>, ghost data: map<string, string>,
             ghost target: seq<Entry>, ghost n: nat, k: Key, o: Option<string>)
    returns (r: map<string, string>)
    requires n < |target| && target[n] == Entry(k, o)
    requires m == Apply(data, target[..n])
    ensures r == Apply(data, target[..n + 1])
  {
    assert target[..n + 1][..n] == target[..n];
    if o.Some? {
      r := m[Render(k) := o.value];
    } else {
      r := m;
    }
  }

  /** The `n`-th of the writes `target` is skipped: the dictionary stays as it is. */
  lemma Skip(m: map<string, string>, data: map<string, string>, target: seq<Entry>, n: nat)
    requires n < |target| && target[n].value.None?
    requires m == Apply(data, target[..n])
    ensures m == Apply(data, target[..n + 1])
  {
    assert target[..n + 1][..n] == target[..n];
  }

  // Renderings of nullable numbers and URIs: null stays null.

  function IntText(o: Option<int>, fmt: Formatters): Option<string> {
    if o.Some? then Some(fmt.integer(o.value)) else None
  }

  function DecimalText(o: Option<real>, fmt: Formatters): Option<string> {
    if o.Some? then Some(fmt.decimal(o.value)) else None
  }

  function UriText(o: Option<Uri>, fmt: Formatters): Option<string> {
    if o.Some? then Some(fmt.uri(o.value)) else None
  }

  // ---------------------------------------------------------------------------------------
  // Sender name, e-mail and phone

  /** The contact writes; the phone's two writes happen only when there is a phone. */
  function ContactW(s: Sender): seq<Entry> {
    [Entry(Named("senderName"), s.name),
     Entry(Named("senderEmail"), s.email),
     Entry(Named("senderAreaCode"), if s.phone.Some? then s.phone.value.areaCode else None),
     Entry(Named("senderPhone"), if s.phone.Some? then s.phone.value.number else None)]
  }

  method PutContact(data: map<string, string>, s: Sender) returns (r: map<string, string>)
    ensures r == Apply(data, ContactW(s))
  {
    ghost var w := ContactW(s);
    assert w[..0] == [];
    r := Put(data, data, w, 0, Named("senderName"), s.name);
    r := Put(r, data, w, 1, Named("senderEmail"), s.email);
    if s.phone.Some? {
      r := Put(r, data, w, 2, Named("senderAreaCode"), s.phone.value.areaCode);
      r := Put(r, data, w, 3, Named("senderPhone"), s.phone.value.number);
    } else {
      Skip(r, data, w, 2);
      Skip(r, data, w, 3);
    }
    assert w[..4] == w;
  }

  /** Each contact key holds its field when the field (and, for the phone, the phone) is
      present; the document keys are left to the document writes. */
  lemma ContactLookup(s: Sender)
    ensures LookupKey(ContactW(s), Named("senderName")) == s.name
    ensures LookupKey(ContactW(s), Named("senderEmail")) == s.email
    ensures LookupKey(ContactW(s), Named("senderAreaCode"))
         == if s.phone.Some? then s.phone.value.areaCode else None
    ensures LookupKey(ContactW(s), Named("senderPhone"))
         == if s.phone.Some? then s.phone.value.number else None
    ensures LookupKey(ContactW(s), Named("senderCPF")).None?
    ensures LookupKey(ContactW(s), Named("senderCNPJ")).None?
  {
    var ws := ContactW(s);
    assert KeysDistinct(ws);
    LookupKeyDistinct(ws, 0);
    LookupKeyDistinct(ws, 1);
    LookupKeyDistinct(ws, 2);
    LookupKeyDistinct(ws, 3);
  }

  /** The contact writes belong to the sender. */
  lemma ContactSection(s: Sender)
    ensures forall e | e in ContactW(s) :: SectionOf(e.key) == Section.Sender
  {
    var ws := ContactW(s);
    assert forall i | 0 <= i < |ws| :: SectionOf(ws[i].key) == Section.Sender;
  }

  // ---------------------------------------------------------------------------------------
  // Addresses

  /** The fields of an address; the shipping and the sender address blocks write each under
      a key of their own, in different orders. */
  datatype AddressField = Street | Number | Complement | District | City | State | PostalCode | Country

  function AddressValue(a: Address, f: AddressField): Option<string> {
    match f
    case Street => a.street
    case Number => a.number
    case Complement => a.complement
    case District => a.district
    case City => a.city
    case State => a.state
    case PostalCode => a.postalCode
    case Country => a.country
  }

  // ---------------------------------------------------------------------------------------
  // Pre-approval terms

  predicate IsManual(pa: PreApprovalTerms) {
    pa.charge == CHARGE_MANUAL
  }

  /** The pre-approval writes: seven for every pre-approval, three more for a manual charge,
      and for a manual charge the one day-of write its period selects. */
  function PreApprovalW(pa: PreApprovalTerms, fmt: Formatters): seq<Entry> {
    BaseTermsW(pa, fmt) + ManualTermsW(pa, fmt)
  }

  function BaseTermsW(pa: PreApprovalTerms, fmt: Formatters): seq<Entry> {
    [Entry(Named("preApprovalCharge"), Some(pa.charge)),
     Entry(Named("preApprovalName"), Some(pa.name)),
     Entry(Named("preApprovalDetails"), Some(pa.details)),
     Entry(Named("preApprovalPeriod"), Some(pa.period)),
     Entry(Named("preApprovalFinalDate"), Some(DateTimeValue(pa.finalDate, fmt))),
     Entry(Named("preApprovalMaxTotalAmount"), Some(FixedPoint(pa.maxTotalAmount, fmt))),
     Entry(Named("preApprovalAmountPerPayment"), Some(FixedPoint(pa.amountPerPayment, fmt)))]
  }

  function ManualTermsW(pa: PreApprovalTerms, fmt: Formatters): seq<Entry> {
    var manual := IsManual(pa);
    [Entry(Named("preApprovalInitialDate"),
           if manual then Some(DateTimeValue(pa.initialDate, fmt)) else None),
     Entry(Named("preApprovalMaxAmountPerPeriod"),
           if manual then Some(FixedPoint(pa.maxAmountPerPeriod, fmt)) else None),
     Entry(Named("preApprovalMaxPaymentsPerPeriod"),
           if manual then Some(fmt.integer(pa.maxPaymentsPerPeriod)) else None),
     Entry(Named("preApprovalDayOfYear"),
           if manual && pa.period == PERIOD_YEARLY then Some(fmt.integer(pa.dayOfYear)) else None),
     Entry(Named("preApprovalDayOfMonth"),
           if manual && MonthDayPeriod(pa.period) then Some(fmt.integer(pa.dayOfMonth)) else None),
     Entry(Named("preApprovalDayOfWeek"),
           if manual && pa.period == PERIOD_WEEKLY then Some(fmt.integer(pa.dayOfWeek)) else None)]
  }

  method PutPreApproval(data: map<string, string>, pa: PreApprovalTerms, fmt: Formatters)
    returns (r: map<string, string>)
    ensures r == Apply(data, PreApprovalW(pa, fmt))
  {
    r := PutBaseTerms(data, pa, fmt);
    if pa.charge == CHARGE_MANUAL {
      r := PutManualTerms(r, pa, fmt);
    } else {
      ManualTermsSkipped(r, pa, fmt);
    }
    ApplyConcat(data, BaseTermsW(pa, fmt), ManualTermsW(pa, fmt));
  }

  /** The seven terms every pre-approval has. */
  method PutBaseTerms(data: map<string, string>, pa: PreApprovalTerms, fmt: Formatters)
    returns (r: map<string, string>)
    ensures r == Apply(data, BaseTermsW(pa, fmt))
  {
    ghost var w := BaseTermsW(pa, fmt);
    assert w[..0] == [];
    r := Put(data, data, w, 0, Named("preApprovalCharge"), Some(pa.charge));
    r := Put(r, data, w, 1, Named("preApprovalName"), Some(pa.name));
    r := Put(r, data, w, 2, Named("preApprovalDetails"), Some(pa.details));
    r := Put(r, data, w, 3, Named("preApprovalPeriod"), Some(pa.period));
    r := Put(r, data, w, 4, Named("preApprovalFinalDate"), Some(DateTimeValue(pa.finalDate, fmt)));
    r := Put(r, data, w, 5, Named("preApprovalMaxTotalAmount"), Some(FixedPoint(pa.maxTotalAmount, fmt)));
    r := Put(r, data, w, 6, Named("preApprovalAmountPerPayment"), Some(FixedPoint(pa.amountPerPayment, fmt)));
    assert w[..7] == w;
  }

  /** The block of a manual charge: three more terms and the day-of write its period
      selects. */
  method PutManualTerms(data: map<string, string>, pa: PreApprovalTerms, fmt: Formatters)
    returns (r: map<string, string>)
    requires IsManual(pa)
    ensures r == Apply(data, ManualTermsW(pa, fmt))
  {
    ghost var v := ManualTermsW(pa, fmt);
    assert v[..0] == [];
    r := Put(data, data, v, 0, Named("preApprovalInitialDate"), Some(DateTimeValue(pa.initialDate, fmt)));
    r := Put(r, data, v, 1, Named("preApprovalMaxAmountPerPeriod"),
             Some(FixedPoint(pa.maxAmountPerPeriod, fmt)));
    r := Put(r, data, v, 2, Named("preApprovalMaxPaymentsPerPeriod"),
             Some(fmt.integer(pa.maxPaymentsPerPeriod)));
    r := PutDayOf(r, data, pa, fmt);
  }

  /** The day-of write the period of a manual charge selects, after the three manual terms. */
  method PutDayOf(m: map<string, string>, ghost data: map<string, string>, pa: PreApprovalTerms, fmt: Formatters)
    returns (r: map<string, string>)
    requires IsManual(pa)
    requires m == Apply(data, ManualTermsW(pa, fmt)[..3])
    ensures r == Apply(data, ManualTermsW(pa, fmt))
  {
    ghost var v := ManualTermsW(pa, fmt);
    r := m;
    if pa.period == PERIOD_YEARLY {
      r := Put(r, data, v, 3, Named("preApprovalDayOfYear"), Some(fmt.integer(pa.dayOfYear)));
    } else {
      Skip(r, data, v, 3);
    }
    if MonthDayPeriod(pa.period) {
      r := Put(r, data, v, 4, Named("preApprovalDayOfMonth"), Some(fmt.integer(pa.dayOfMonth)));
    } else {
      Skip(r, data, v, 4);
    }
    if pa.period == PERIOD_WEEKLY {
      r := Put(r, data, v, 5, Named("preApprovalDayOfWeek"), Some(fmt.integer(pa.dayOfWeek)));
    } else {
      Skip(r, data, v, 5);
    }
    assert v[..6] == v;
  }

  /** Without a manual charge the block writes nothing. */
  lemma ManualTermsSkipped(m: map<string, string>, pa: PreApprovalTerms, fmt: Formatters)
    requires !IsManual(pa)
    ensures Apply(m, ManualTermsW(pa, fmt)) == m
  {
    var v := ManualTermsW(pa, fmt);
    assert v[..0] == [];
    Skip(m, m, v, 0);
    Skip(m, m, v, 1);
    Skip(m, m, v, 2);
    Skip(m, m, v, 3);
    Skip(m, m, v, 4);
    Skip(m, m, v, 5);
    assert v[..6] == v;
  }

  lemma PreApprovalKeysDistinct(pa: PreApprovalTerms, fmt: Formatters)
    ensures KeysDistinct(PreApprovalW(pa, fmt))
  {
  }

  /** The seven terms every pre-approval carries are always written, with the dates followed
      by the fixed time and the amounts in fixed-point form with a period separator. */
  lemma PreApprovalBaseLookup(pa: PreApprovalTerms, fmt: Formatters)
    ensures LookupKey(PreApprovalW(pa, fmt), Named("preApprovalCharge")) == Some(pa.charge)
    ensures LookupKey(PreApprovalW(pa, fmt), Named("preApprovalName")) == Some(pa.name)
    ensures LookupKey(PreApprovalW(pa, fmt), Named("preApprovalDetails")) == Some(pa.details)
    ensures LookupKey(PreApprovalW(pa, fmt), Named("preApprovalPeriod")) == Some(pa.period)
    ensures LookupKey(PreApprovalW(pa, fmt), Named("preApprovalFinalDate"))
         == Some(DateTimeValue(pa.finalDate, fmt))
    ensures LookupKey(PreApprovalW(pa, fmt), Named("preApprovalMaxTotalAmount"))
         == Some(FixedPoint(pa.maxTotalAmount, fmt))
    ensures LookupKey(PreApprovalW(pa, fmt), Named("preApprovalAmountPerPayment"))
         == Some(FixedPoint(pa.amountPerPayment, fmt))
  {
    var ws := PreApprovalW(pa, fmt);
    PreApprovalKeysDistinct(pa, fmt);
    LookupKeyDistinct(ws, 0);
    LookupKeyDistinct(ws, 1);
    LookupKeyDistinct(ws, 2);
    LookupKeyDistinct(ws, 3);
    LookupKeyDistinct(ws, 4);
    LookupKeyDistinct(ws, 5);
    LookupKeyDistinct(ws, 6);
  }

  /** The terms of a manual charge are written exactly when the charge is manual; the day of
      the year goes with a yearly period, the day of the month with a monthly, bimonthly,
      trimonthly or semiannual one, the day of the week with a weekly one. */
  lemma PreApprovalManualLookup(pa: PreApprovalTerms, fmt: Formatters)
    ensures LookupKey(PreApprovalW(pa, fmt), Named("preApprovalInitialDate"))
         == if IsManual(pa) then Some(DateTimeValue(pa.initialDate, fmt)) else None
    ensures LookupKey(PreApprovalW(pa, fmt), Named("preApprovalMaxAmountPerPeriod"))
         == if IsManual(pa) then Some(FixedPoint(pa.maxAmountPerPeriod, fmt)) else None
    ensures LookupKey(PreApprovalW(pa, fmt), Named("preApprovalMaxPaymentsPerPeriod"))
         == if IsManual(pa) then Some(fmt.integer(pa.maxPaymentsPerPeriod)) else None
    ensures LookupKey(PreApprovalW(pa, fmt), Named("preApprovalDayOfYear"))
         == if IsManual(pa) && pa.period == PERIOD_YEARLY then Some(fmt.integer(pa.dayOfYear)) else None
    ensures LookupKey(PreApprovalW(pa, fmt), Named("preApprovalDayOfMonth"))
         == if IsManual(pa) && MonthDayPeriod(pa.period) then Some(fmt.integer(pa.dayOfMonth)) else None
    ensures LookupKey(PreApprovalW(pa, fmt), Named("preApprovalDayOfWeek"))
         == if IsManual(pa) && pa.period == PERIOD_WEEKLY then Some(fmt.integer(pa.dayOfWeek)) else None
  {
    var ws := PreApprovalW(pa, fmt);
    PreApprovalKeysDistinct(pa, fmt);
    LookupKeyDistinct(ws, 7);
    LookupKeyDistinct(ws, 8);
    LookupKeyDistinct(ws, 9);
    LookupKeyDistinct(ws, 10);
    LookupKeyDistinct(ws, 11);
    LookupKeyDistinct(ws, 12);
  }

  /** At most one day-of key is written, and none unless the charge is manual. */
  lemma AtMostOneDayOf(pa: PreApprovalTerms, fmt: Formatters)
    ensures var ws := PreApprovalW(pa, fmt);
      (if LookupKey(ws, Named("preApprovalDayOfYear")).Some? then 1 else 0)
      + (if LookupKey(ws, Named("preApprovalDayOfMonth")).Some? then 1 else 0)
      + (if LookupKey(ws, Named("preApprovalDayOfWeek")).Some? then 1 else 0)
      <= (if IsManual(pa) then 1 else 0)
  {
    PreApprovalManualLookup(pa, fmt);
  }

  /** The pre-approval writes belong to the pre-approval. */
  lemma PreApprovalSection(pa: PreApprovalTerms, fmt: Formatters)
    ensures forall e | e in PreApprovalW(pa, fmt) :: SectionOf(e.key) == Section.PreApproval
  {
    var ws := PreApprovalW(pa, fmt);
    assert forall i | 0 <= i < |ws| :: SectionOf(ws[i].key) == Section.PreApproval;
  }

  // ---------------------------------------------------------------------------------------
  // Metadata

  /** An entry is emitted only when neither its key nor its value is blank. */
  predicate MetaDataKept(m: MetaDataItem, fmt: Formatters) {
    !Blank(m.key, fmt) && !Blank(m.value, fmt)
  }

  /** The entries that are emitted, in order. */
  function KeptMetaData(items: seq<MetaDataItem>, fmt: Formatters): seq<MetaDataItem> {
    if items == [] then []
    else
      var init, last := items[..|items| - 1], items[|items| - 1];
      if MetaDataKept(last, fmt) then KeptMetaData(init, fmt) + [last] else KeptMetaData(init, fmt)
  }

  /** The emitted entries are exactly the entries with a key and a value that are not
      blank. */
  lemma {:induction false} KeptMetaDataMembers(items: seq<MetaDataItem>, fmt: Formatters)
    ensures |KeptMetaData(items, fmt)| <= |items|
    ensures forall i | 0 <= i < |KeptMetaData(items, fmt)| :: MetaDataKept(KeptMetaData(items, fmt)[i], fmt)
    ensures forall m | m in KeptMetaData(items, fmt) :: m in items
    ensures forall m | m in items && MetaDataKept(m, fmt) :: m in KeptMetaData(items, fmt)
  {
    if items != [] {
      var init, last := items[..|items| - 1], items[|items| - 1];
      KeptMetaDataMembers(init, fmt);
      assert items == init + [last];
    }
  }

  /** Filtering keeps the order of the entries: the entries emitted from two runs of
      entries are those of the first run followed by those of the second. */
  lemma {:induction false} KeptMetaDataConcat(a: seq<MetaDataItem>, b: seq<MetaDataItem>, fmt: Formatters)
    ensures KeptMetaData(a + b, fmt) == KeptMetaData(a, fmt) + KeptMetaData(b, fmt)
    decreases |b|
  {
    if b == [] {
      assert a + b == a;
    } else {
      var init, last := b[..|b| - 1], b[|b| - 1];
      assert (a + b)[..|a + b| - 1] == a + init;
      assert (a + b)[|a + b| - 1] == last;
      KeptMetaDataConcat(a, init, fmt);
    }
  }

  /** The writes for the `n`-th emitted entry; the group is written only when present. */
  function MetaDataEntryW(m: MetaDataItem, n: nat, fmt: Formatters): seq<Entry> {
    [Entry(Indexed("metadataItemKey", n), m.key),
     Entry(Indexed("metadataItemValue", n), m.value),
     Entry(Indexed("metadataItemGroup", n), IntText(m.group, fmt))]
  }

  /** The writes of the metadata loop: the counter advances only for emitted entries. */
  function MetaDataW(items: seq<MetaDataItem>, fmt: Formatters): seq<Entry> {
    if items == [] then []
    else
      var init, last := items[..|items| - 1], items[|items| - 1];
      if MetaDataKept(last, fmt) then
        MetaDataW(init, fmt) + MetaDataEntryW(last, |KeptMetaData(init, fmt)| + 1, fmt)
      else MetaDataW(init, fmt)
  }

  /** One more step of the metadata loop. */
  lemma MetaDataStep(items: seq<MetaDataItem>, j: nat, fmt: Formatters)
    requires j < |items|
    ensures KeptMetaData(items[..j + 1], fmt)
         == KeptMetaData(items[..j], fmt) + (if MetaDataKept(items[j], fmt) then [items[j]] else [])
    ensures MetaDataW(items[..j + 1], fmt)
         == MetaDataW(items[..j], fmt)
            + (if MetaDataKept(items[j], fmt)
               then MetaDataEntryW(items[j], |KeptMetaData(items[..j], fmt)| + 1, fmt) else [])
  {
    assert items[..j + 1][..j] == items[..j];
  }

  method PutMetaData(data: map<string, string>, items: seq<MetaDataItem>, fmt: Formatters)
    returns (r: map<string, string>)
    ensures r == Apply(data, MetaDataW(items, fmt))
  {
    r := data;
    var i := 0;
    var j := 0;
    while j < |items|
      invariant 0 <= j <= |items|
      invariant i == |KeptMetaData(items[..j], fmt)|
      invariant r == Apply(data, MetaDataW(items[..j], fmt))
    {
      var item := items[j];
      MetaDataStep(items, j, fmt);
      ghost var before := MetaDataW(items[..j], fmt);
      j := j + 1;
      if Blank(item.key, fmt) || Blank(item.value, fmt) {
        assert !MetaDataKept(item, fmt) && before + [] == before;
        continue;
      }
      i := i + 1;
      r := PutMetaDataEntry(r, data, before, item, i, fmt);
      assert MetaDataKept(item, fmt);
    }
    assert items[..j] == items;
  }

  /** The key, value and group writes of one kept entry, under its 1-based index `i`. */
  method PutMetaDataEntry(m: map<string, string>, ghost data: map<string, string>, ghost before: seq<Entry>,
                          item: MetaDataItem, i: nat, fmt: Formatters)
    returns (r: map<string, string>)
    requires m == Apply(data, before)
    ensures r == Apply(data, before + MetaDataEntryW(item, i, fmt))
  {
    ghost var w := before + MetaDataEntryW(item, i, fmt);
    ghost var n := |before|;
    assert w[..n] == before;
    r := Put(m, data, w, n, Indexed("metadataItemKey", i), item.key);
    r := Put(r, data, w, n + 1, Indexed("metadataItemValue", i), item.value);
    if item.group.Some? {
      r := Put(r, data, w, n + 2, Indexed("metadataItemGroup", i), Some(fmt.integer(item.group.value)));
    } else {
      Skip(r, data, w, n + 2);
    }
    assert w[..n + 3] == w;
  }

  /** The keys of one emitted entry hold its fields at its own index and nothing elsewhere. */
  lemma MetaDataEntryLookup(m: MetaDataItem, n: nat, fmt: Formatters, j: nat)
    ensures LookupKey(MetaDataEntryW(m, n, fmt), Indexed("metadataItemKey", j))
         == if j == n then m.key else None
    ensures LookupKey(MetaDataEntryW(m, n, fmt), Indexed("metadataItemValue", j))
         == if j == n then m.value else None
    ensures LookupKey(MetaDataEntryW(m, n, fmt), Indexed("metadataItemGroup", j))
         == if j == n then IntText(m.group, fmt) else None
  {
    var ws := MetaDataEntryW(m, n, fmt);
    assert KeysDistinct(ws);
    LookupKeyDistinct(ws, 0);
    LookupKeyDistinct(ws, 1);
    LookupKeyDistinct(ws, 2);
  }

  /** The `j`-th metadata keys hold the `j`-th emitted entry, for `j` from 1 to the number of
      emitted entries, and are absent for every other `j`; the group key is written only for
      an entry with a group. */
  lemma {:induction false} MetaDataLookup(items: seq<MetaDataItem>, fmt: Formatters, j: nat)
    ensures var kept := KeptMetaData(items, fmt);
      LookupKey(MetaDataW(items, fmt), Indexed("metadataItemKey", j))
        == (if 1 <= j <= |kept| then kept[j - 1].key else None)
    ensures var kept := KeptMetaData(items, fmt);
      LookupKey(MetaDataW(items, fmt), Indexed("metadataItemValue", j))
        == (if 1 <= j <= |kept| then kept[j - 1].value else None)
    ensures var kept := KeptMetaData(items, fmt);
      LookupKey(MetaDataW(items, fmt), Indexed("metadataItemGroup", j))
        == (if 1 <= j <= |kept| then IntText(kept[j - 1].group, fmt) else None)
  {
    if items != [] {
      var init, last := items[..|items| - 1], items[|items| - 1];
      MetaDataLookup(init, fmt, j);
      if MetaDataKept(last, fmt) {
        var n := |KeptMetaData(init, fmt)| + 1;
        var tail := MetaDataEntryW(last, n, fmt);
        MetaDataEntryLookup(last, n, fmt, j);
        LookupKeyConcat(MetaDataW(init, fmt), tail, Indexed("metadataItemKey", j));
        LookupKeyConcat(MetaDataW(init, fmt), tail, Indexed("metadataItemValue", j));
        LookupKeyConcat(MetaDataW(init, fmt), tail, Indexed("metadataItemGroup", j));
      }
    }
  }

  /** The metadata indices run without gaps from 1 to the number of emitted entries. */
  lemma MetaDataContiguous(items: seq<MetaDataItem>, fmt: Formatters, j: nat)
    ensures LookupKey(MetaDataW(items, fmt), Indexed("metadataItemKey", j)).Some?
        <==> 1 <= j <= |KeptMetaData(items, fmt)|
    ensures LookupKey(MetaDataW(items, fmt), Indexed("metadataItemValue", j)).Some?
        <==> 1 <= j <= |KeptMetaData(items, fmt)|
  {
    MetaDataLookup(items, fmt, j);
    KeptMetaDataMembers(items, fmt);
  }

  /** The metadata writes belong to the metadata. */
  lemma {:induction false} MetaDataSection(items: seq<MetaDataItem>, fmt: Formatters)
    ensures forall e | e in MetaDataW(items, fmt) :: SectionOf(e.key) == Section.MetaData
  {
    if items != [] {
      var init, last := items[..|items| - 1], items[|items| - 1];
      MetaDataSection(init, fmt);
      if MetaDataKept(last, fmt) {
        var tail := MetaDataEntryW(last, |KeptMetaData(init, fmt)| + 1, fmt);
        assert forall i | 0 <= i < |tail| :: SectionOf(tail[i].key) == Section.MetaData;
      }
    }
  }

  // ---------------------------------------------------------------------------------------
  // Pass-through parameters

  predicate ParameterKept(p: ParameterItem, fmt: Formatters) {
    !Blank(p.key, fmt) && !Blank(p.value, fmt)
  }

  /** The key a parameter is written under: its name, followed by its group when it has one. */
  function ParameterKey(p: ParameterItem, fmt: Formatters): string
    requires p.key.Some?
  {
    if p.group.Some? then p.key.value + fmt.integer(p.group.value) else p.key.value
  }

  /** The writes of the parameter loop; blank parameters are skipped. */
  function ParameterW(items: seq<ParameterItem>, fmt: Formatters): (ws: seq<Entry>)
    ensures forall e | e in ws :: e.key.Raw?
  {
    if items == [] then []
    else
      var init, last := items[..|items| - 1], items[|items| - 1];
      if ParameterKept(last, fmt) then
        ParameterW(init, fmt) + [Entry(Raw(ParameterKey(last, fmt)), last.value)]
      else ParameterW(init, fmt)
  }

  method PutParameters(data: map<string, string>, items: seq<ParameterItem>, fmt: Formatters)
    returns (r: map<string, string>)
    ensures r == Apply(data, ParameterW(items, fmt))
  {
    r := data;
    var j := 0;
    while j < |items|
      invariant 0 <= j <= |items|
      invariant r == Apply(data, ParameterW(items[..j], fmt))
    {
      var item := items[j];
      assert items[..j + 1][..j] == items[..j];
      j := j + 1;
      if Blank(item.key, fmt) || Blank(item.value, fmt) {
        continue;
      }
      if item.group.Some? {
        r := r[item.key.value + fmt.integer(item.group.value) := item.value.value];
      } else {
        r := r[item.key.value := item.value.value];
      }
    }
    assert items[..j] == items;
  }

  /** A name that no kept parameter is written under is not passed through. */
  lemma {:induction false} ParameterAbsent(items: seq<ParameterItem>, fmt: Formatters, s: string)
    ensures Lookup(ParameterW(items, fmt), s).None?
        <==> forall i | 0 <= i < |items| && ParameterKept(items[i], fmt) :: ParameterKey(items[i], fmt) != s
  {
    if items != [] {
      var init, last := items[..|items| - 1], items[|items| - 1];
      ParameterAbsent(init, fmt, s);
      if ParameterKept(last, fmt) {
        LookupConcat(ParameterW(init, fmt), [Entry(Raw(ParameterKey(last, fmt)), last.value)], s);
      }
      assert forall i | 0 <= i < |init| :: items[i] == init[i];
    }
  }

  /** A parameter name holds the value of the last kept parameter written under it: a later
      parameter replaces an earlier one with the same name. */
  lemma {:induction false} ParameterLastWins(items: seq<ParameterItem>, fmt: Formatters, i: nat)
    requires i < |items| && ParameterKept(items[i], fmt)
    requires forall j | i < j < |items| && ParameterKept(items[j], fmt)
               :: ParameterKey(items[j], fmt) != ParameterKey(items[i], fmt)
    ensures Lookup(ParameterW(items, fmt), ParameterKey(items[i], fmt)) == items[i].value
  {
    var init, last := items[..|items| - 1], items[|items| - 1];
    var s := ParameterKey(items[i], fmt);
    if i == |items| - 1 {
      LookupConcat(ParameterW(init, fmt), [Entry(Raw(s), last.value)], s);
    } else {
      ParameterLastWins(init, fmt, i);
      if ParameterKept(last, fmt) {
        LookupConcat(ParameterW(init, fmt), [Entry(Raw(ParameterKey(last, fmt)), last.value)], s);
      }
    }
  }
}
