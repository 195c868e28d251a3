/** The request objects the encoders read, the gateway's constants, and the leaf formatters.

    A nullable field is an `Option`; a collection the caller may leave null is an
    `Option<seq<_>>`. Fields the encoders dereference without a null check are plain values.
    Rendering numbers, dates and URIs to text is done by framework and utility code that is
    not part of this model: those renderings are the fields of a `Formatters` record that
    the encoders receive as a parameter, so every property proved here holds for every
    rendering. */
module Domain {
  import opened Options

  /** A calendar date; the encoders render only its date part. */
  datatype Date = Date(year: int, month: int, day: int)

  datatype Uri = Uri(text: string)

  datatype Phone = Phone(areaCode: Option<string>, number: Option<string>)

  /** `docType` is compared with the CPF type name; a document of any other type is a CNPJ. */
  datatype Document = Document(docType: string, value: string)

  datatype Address = Address(
    street: Option<string>, number: Option<string>, complement: Option<string>,
    district: Option<string>, city: Option<string>, state: Option<string>,
    postalCode: Option<string>, country: Option<string>)

  datatype Sender = Sender(
    name: Option<string>, email: Option<string>, phone: Option<Phone>,
    documents: Option<seq<Option<Document>>>, address: Option<Address>)

  datatype Item = Item(
    id: Option<string>, description: Option<string>, quantity: int, amount: real,
    weight: Option<int>, shippingCost: Option<real>)

  /** The terms of a recurring pre-approval. `charge` and `period` are the gateway's code
      strings; the day-of and per-period fields matter only for a manual charge. */
  datatype PreApprovalTerms = PreApprovalTerms(
    charge: string, name: string, details: string, period: string,
    finalDate: Date, maxTotalAmount: real, amountPerPayment: real,
    initialDate: Date, maxAmountPerPeriod: real, maxPaymentsPerPeriod: int,
    dayOfYear: int, dayOfMonth: int, dayOfWeek: int)

  /** `shippingType` is the ordinal of the shipping-type enumeration. */
  datatype Shipping = Shipping(shippingType: Option<int>, cost: Option<real>, address: Option<Address>)

  datatype MetaDataItem = MetaDataItem(key: Option<string>, value: Option<string>, group: Option<int>)

  datatype ParameterItem = ParameterItem(key: Option<string>, value: Option<string>, group: Option<int>)

  datatype PaymentMethodConfigItem = PaymentMethodConfigItem(key: Option<string>, group: Option<string>, value: real)

  /** Whether a payment-method entry accepts or excludes its methods. */
  datatype MethodKind = Accept | Exclude

  datatype PaymentMethod = PaymentMethod(kind: MethodKind, group: string, names: seq<string>)

  datatype PaymentRequest = PaymentRequest(
    reference: Option<string>,
    sender: Option<Sender>,
    currency: Option<string>,
    items: Option<seq<Item>>,
    preApproval: Option<PreApprovalTerms>,
    reviewUri: Option<Uri>,
    preApprovalCode: Option<string>,
    extraAmount: Option<real>,
    shipping: Option<Shipping>,
    maxAge: Option<int>,
    maxUses: Option<int>,
    redirectUri: Option<Uri>,
    notificationUrl: Option<string>,
    metaData: Option<seq<MetaDataItem>>,
    parameter: Option<seq<ParameterItem>>,
    paymentMethodConfig: Option<seq<PaymentMethodConfigItem>>,
    acceptedPaymentMethods: Option<seq<PaymentMethod>>)

  datatype PreApprovalRequest = PreApprovalRequest(
    reference: Option<string>,
    sender: Option<Sender>,
    preApproval: PreApprovalTerms,
    currency: Option<string>,
    redirectUri: Option<Uri>,
    reviewUri: Option<Uri>,
    notificationUrl: Option<string>,
    metaData: Option<seq<MetaDataItem>>,
    parameter: Option<seq<ParameterItem>>)

  /** The renderings the encoders use but do not define. */
  datatype Formatters = Formatters(
    decimal: real -> string,        // the utility decimal formatter
    doubleToInt: real -> string,    // the utility that drops the fraction of a double
    fixedPoint: real -> string,     // a decimal in fixed-point form, host-culture separator
    integer: int -> string,         // an integer or long in decimal
    date: Date -> string,           // a date as yyyy-MM-dd
    uri: Uri -> string,             // a URI as text
    shippingType: int -> string,    // the name of a shipping type
    isEmpty: string -> bool)        // the utility blank-string test on a non-null string

  /** The document type name that selects the CPF key; every other type selects CNPJ. */
  const CPF_DOCUMENT_TYPE: string := "Cadastro de Pessoa Física"

  /** The fixed time of day and offset appended to every pre-approval date. */
  const DATE_TIME_SUFFIX: string := "T01:00:00.45-03:00"

  const CHARGE_MANUAL: string := "manual"

  const PERIOD_WEEKLY: string := "WEEKLY"
  const PERIOD_MONTHLY: string := "MONTHLY"
  const PERIOD_BIMONTHLY: string := "BIMONTHLY"
  const PERIOD_TRIMONTHLY: string := "TRIMONTHLY"
  const PERIOD_SEMIANNUALLY: string := "SEMIANNUALLY"
  const PERIOD_YEARLY: string := "YEARLY"

  /** The periods whose manual charges fall on a day of the month. */
  predicate MonthDayPeriod(period: string) {
    period == PERIOD_MONTHLY || period == PERIOD_BIMONTHLY
    || period == PERIOD_TRIMONTHLY || period == PERIOD_SEMIANNUALLY
  }

  /** The payment-method configuration key whose value is a percentage, not a count. */
  const DISCOUNT_PERCENT: string := "DISCOUNT_PERCENT"

  /** A null string counts as blank, as does any string the blank test accepts. */
  predicate Blank(s: Option<string>, fmt: Formatters) {
    s.None? || fmt.isEmpty(s.value)
  }

  /** The culture-invariant rendering of a decimal: every comma replaced by a period. */
  function ReplaceCommas(s: string): string {
    if s == [] then []
    else [if s[0] == ',' then '.' else s[0]] + ReplaceCommas(s[1..])
  }

  /** Replacing commas keeps every other character in place and leaves no comma. */
  lemma {:induction false} ReplaceCommasSpec(s: string)
    ensures |ReplaceCommas(s)| == |s|
    ensures forall i | 0 <= i < |s| :: ReplaceCommas(s)[i] == if s[i] == ',' then '.' else s[i]
    ensures ',' !in ReplaceCommas(s)
  {
    if s != [] {
      ReplaceCommasSpec(s[1..]);
      assert forall i | 1 <= i < |s| :: ReplaceCommas(s)[i] == ReplaceCommas(s[1..])[i - 1];
    }
  }

  /** A decimal in fixed-point form with a period separator, whatever the host culture. */
  function FixedPoint(x: real, fmt: Formatters): string {
    ReplaceCommas(fmt.fixedPoint(x))
  }

  /** A pre-approval date: the rendered date followed by the fixed time and offset. */
  function DateTimeValue(d: Date, fmt: Formatters): string {
    fmt.date(d) + DATE_TIME_SUFFIX
  }
}
