/** The encoder of a one-time payment request (`PaymentParse.GetData`).

    The encoder writes the request's parts into one dictionary, in a fixed order: reference,
    sender, currency, items, pre-approval, review address, pre-approval code, extra amount,
    shipping, maximum age and uses, redirect and notification addresses, metadata, the
    caller's pass-through parameters, the payment-method configuration and the accepted and
    excluded payment methods. `Parts` lists the writes of each part; `Encode` is the
    dictionary they leave, and `GetData` computes it step by step. The lemmas at the end
    read individual keys of that dictionary: each key holds what its own part wrote, except
    where a pass-through parameter of the same name replaces it (or is replaced, for the
    two parts written after the parameters). */
module PaymentParse {
  import opened Options
  import opened Keys
  import opened ParameterMap
  import opened Domain
  import opened Sections
  import opened PaymentSections

  /** The section of each part, in the order the parts are written, in the four groups of
      `Parts`. */
  const PAYMENT_SECTIONS: seq<Section> := HEAD_SECTIONS + TERMS_SECTIONS + LIMITS_SECTIONS + LISTS_SECTIONS

  const HEAD_SECTIONS: seq<Section> := [Section.Reference, Section.Sender, Currency, Items]
  const TERMS_SECTIONS: seq<Section> :=
    [Section.PreApproval, Review, PreApprovalCode, ExtraAmount, Section.Shipping]
  const LIMITS_SECTIONS: seq<Section> := [MaxAge, MaxUses, Redirect, Notification]
  const LISTS_SECTIONS: seq<Section> :=
    [Section.MetaData, PassThrough, PaymentMethodConfig, AcceptedPaymentMethods]

  /** The position of the pass-through parameters among the parts. */
  const PASS_THROUGH: nat := 14

  /** The pass-through parameters are written only for a non-empty collection. */
  function PassThroughW(req: PaymentRequest, fmt: Formatters): seq<Entry> {
    if req.parameter.Some? && |req.parameter.value| > 0 then ParameterW(req.parameter.value, fmt) else []
  }

  /** The accept and exclude writes; a null or empty collection ends the encoding first. */
  function AcceptedPartW(req: PaymentRequest): seq<Entry> {
    if req.acceptedPaymentMethods.None? || |req.acceptedPaymentMethods.value| <= 0 then []
    else AcceptedW(req.acceptedPaymentMethods.value)
  }

  /** The reference, when present. */
  function ReferenceW(req: PaymentRequest): seq<Entry> {
    [Entry(Named("reference"), req.reference)]
  }

  /** The sender, when present. */
  function SenderPartW(req: PaymentRequest): seq<Entry> {
    if req.sender.Some? then SenderW(req.sender.value) else []
  }

  function CurrencyW(req: PaymentRequest): seq<Entry> {
    [Entry(Named("currency"), req.currency)]
  }

  /** The items, for a non-empty collection. */
  function ItemsPartW(req: PaymentRequest, fmt: Formatters): seq<Entry> {
    if req.items.Some? && |req.items.value| > 0 then ItemsW(req.items.value, fmt) else []
  }

  function PreApprovalPartW(req: PaymentRequest, fmt: Formatters): seq<Entry> {
    if req.preApproval.Some? then PreApprovalW(req.preApproval.value, fmt) else []
  }

  /** The review address is written only together with a pre-approval. */
  function ReviewW(req: PaymentRequest, fmt: Formatters): seq<Entry> {
    if req.preApproval.Some? then [Entry(Named("reviewUrl"), UriText(req.reviewUri, fmt))] else []
  }

  function PreApprovalCodeW(req: PaymentRequest): seq<Entry> {
    [Entry(Named("preApprovalCode"), req.preApprovalCode)]
  }

  function ExtraAmountW(req: PaymentRequest, fmt: Formatters): seq<Entry> {
    [Entry(Named("extraAmount"), DecimalText(req.extraAmount, fmt))]
  }

  function ShippingPartW(req: PaymentRequest, fmt: Formatters): seq<Entry> {
    if req.shipping.Some? then ShippingW(req.shipping.value, fmt) else []
  }

  function MaxAgeW(req: PaymentRequest, fmt: Formatters): seq<Entry> {
    [Entry(Named("maxAge"), IntText(req.maxAge, fmt))]
  }

  function MaxUsesW(req: PaymentRequest, fmt: Formatters): seq<Entry> {
    [Entry(Named("maxUses"), IntText(req.maxUses, fmt))]
  }

  function RedirectW(req: PaymentRequest, fmt: Formatters): seq<Entry> {
    [Entry(Named("redirectURL"), UriText(req.redirectUri, fmt))]
  }

  function NotificationW(req: PaymentRequest): seq<Entry> {
    [Entry(Named("notificationURL"), req.notificationUrl)]
  }

  /** The metadata; a null collection writes nothing. */
  function MetaDataPartW(req: PaymentRequest, fmt: Formatters): seq<Entry> {
    MetaDataW(Elements(req.metaData), fmt)
  }

  /** The configuration, for a non-empty collection. */
  function ConfigPartW(req: PaymentRequest, fmt: Formatters): seq<Entry> {
    if req.paymentMethodConfig.Some? && |req.paymentMethodConfig.value| > 0
    then ConfigW(req.paymentMethodConfig.value, fmt) else []
  }

  /** The writes of each part of a payment request, in the encoder's order, in the four
      groups `GetData` writes one after the other. */
  function Parts(req: PaymentRequest, fmt: Formatters): seq<seq<Entry>> {
    HeadParts(req, fmt) + TermsParts(req, fmt) + LimitsParts(req, fmt) + ListsParts(req, fmt)
  }

  function HeadParts(req: PaymentRequest, fmt: Formatters): seq<seq<Entry>> {
    [ReferenceW(req), SenderPartW(req), CurrencyW(req), ItemsPartW(req, fmt)]
  }

  function TermsParts(req: PaymentRequest, fmt: Formatters): seq<seq<Entry>> {
    [PreApprovalPartW(req, fmt), ReviewW(req, fmt), PreApprovalCodeW(req), ExtraAmountW(req, fmt),
     ShippingPartW(req, fmt)]
  }

  function LimitsParts(req: PaymentRequest, fmt: Formatters): seq<seq<Entry>> {
    [MaxAgeW(req, fmt), MaxUsesW(req, fmt), RedirectW(req, fmt), NotificationW(req)]
  }

  function ListsParts(req: PaymentRequest, fmt: Formatters): seq<seq<Entry>> {
    [MetaDataPartW(req, fmt), PassThroughW(req, fmt), ConfigPartW(req, fmt), AcceptedPartW(req)]
  }

  /** The dictionary the encoder returns. */
  function Encode(req: PaymentRequest, fmt: Formatters): map<string, string> {
    ApplyAll(map[], Parts(req, fmt))
  }

  /** The value a pass-through parameter gives the string `s`, if any. */
  function Passed(req: PaymentRequest, fmt: Formatters, s: string): Option<string> {
    Lookup(PassThroughW(req, fmt), s)
  }

  method GetData(req: PaymentRequest, fmt: Formatters) returns (data: map<string, string>)
    ensures data == Encode(req, fmt)
  {
    data := PutHead(req, fmt);
    data := PutTerms(data, req, fmt, HeadParts(req, fmt));
    data := PutLimits(data, req, fmt, HeadParts(req, fmt) + TermsParts(req, fmt));
    data := PutLists(data, req, fmt, HeadParts(req, fmt) + TermsParts(req, fmt) + LimitsParts(req, fmt));
  }

  /** Reference, sender, currency and items. */
  method PutHead(req: PaymentRequest, fmt: Formatters) returns (data: map<string, string>)
    ensures data == ApplyAll(map[], HeadParts(req, fmt))
  {
    data := map[];
    ghost var before := data;

    // reference
    if req.reference.Some? {
      data := data["reference" := req.reference.value];
    }
    ApplyOne(before, Entry(Named("reference"), req.reference));
    ApplyAllSnoc(map[], [], ReferenceW(req));
    ghost var done := [] + [ReferenceW(req)];

    // sender
    if req.sender.Some? {
      data := PutSender(data, req.sender.value);
    }
    ApplyAllSnoc(map[], done, SenderPartW(req));
    done := done + [SenderPartW(req)];

    // currency
    before := data;
    if req.currency.Some? {
      data := data["currency" := req.currency.value];
    }
    ApplyOne(before, Entry(Named("currency"), req.currency));
    ApplyAllSnoc(map[], done, CurrencyW(req));
    done := done + [CurrencyW(req)];

    // items
    if req.items.Some? && |req.items.value| > 0 {
      data := PutItems(data, req.items.value, fmt);
    }
    ApplyAllSnoc(map[], done, ItemsPartW(req, fmt));
    AppendFour([], ReferenceW(req), SenderPartW(req), CurrencyW(req), ItemsPartW(req, fmt));
    assert [] + HeadParts(req, fmt) == HeadParts(req, fmt);
  }

  /** Pre-approval with its review address, pre-approval code, extra amount and shipping. */
  method PutTerms(data: map<string, string>, req: PaymentRequest, fmt: Formatters, ghost done: seq<seq<Entry>>)
    returns (r: map<string, string>)
    requires data == ApplyAll(map[], done)
    ensures r == ApplyAll(map[], done + TermsParts(req, fmt))
  {
    r := data;
    ghost var trace := done;

    // pre-approval, with the review address inside its block
    ApplyAllSnoc(map[], trace, PreApprovalPartW(req, fmt));
    ApplyAllSnoc(map[], trace + [PreApprovalPartW(req, fmt)], ReviewW(req, fmt));
    if req.preApproval.Some? {
      r := PutPreApproval(r, req.preApproval.value, fmt);
      ghost var before := r;
      if req.reviewUri.Some? {
        r := r["reviewUrl" := fmt.uri(req.reviewUri.value)];
      }
      ApplyOne(before, Entry(Named("reviewUrl"), UriText(req.reviewUri, fmt)));
    }
    trace := trace + [PreApprovalPartW(req, fmt)] + [ReviewW(req, fmt)];

    // pre-approval code
    ghost var before := r;
    if req.preApprovalCode.Some? {
      r := r["preApprovalCode" := req.preApprovalCode.value];
    }
    ApplyOne(before, Entry(Named("preApprovalCode"), req.preApprovalCode));
    ApplyAllSnoc(map[], trace, PreApprovalCodeW(req));
    trace := trace + [PreApprovalCodeW(req)];

    // extra amount
    before := r;
    if req.extraAmount.Some? {
      r := r["extraAmount" := fmt.decimal(req.extraAmount.value)];
    }
    ApplyOne(before, Entry(Named("extraAmount"), DecimalText(req.extraAmount, fmt)));
    ApplyAllSnoc(map[], trace, ExtraAmountW(req, fmt));
    trace := trace + [ExtraAmountW(req, fmt)];

    // shipping
    if req.shipping.Some? {
      r := PutShipping(r, req.shipping.value, fmt);
    }
    ApplyAllSnoc(map[], trace, ShippingPartW(req, fmt));
    AppendFive(done, PreApprovalPartW(req, fmt), ReviewW(req, fmt), PreApprovalCodeW(req),
               ExtraAmountW(req, fmt), ShippingPartW(req, fmt));
  }

  /** Maximum age and uses, and the redirect and notification addresses. */
  method PutLimits(data: map<string, string>, req: PaymentRequest, fmt: Formatters, ghost done: seq<seq<Entry>>)
    returns (r: map<string, string>)
    requires data == ApplyAll(map[], done)
    ensures r == ApplyAll(map[], done + LimitsParts(req, fmt))
  {
    r := data;
    ghost var trace := done;
    ghost var before := r;

    if req.maxAge.Some? {
      r := r["maxAge" := fmt.integer(req.maxAge.value)];
    }
    ApplyOne(before, Entry(Named("maxAge"), IntText(req.maxAge, fmt)));
    ApplyAllSnoc(map[], trace, MaxAgeW(req, fmt));
    trace := trace + [MaxAgeW(req, fmt)];

    before := r;
    if req.maxUses.Some? {
      r := r["maxUses" := fmt.integer(req.maxUses.value)];
    }
    ApplyOne(before, Entry(Named("maxUses"), IntText(req.maxUses, fmt)));
    ApplyAllSnoc(map[], trace, MaxUsesW(req, fmt));
    trace := trace + [MaxUsesW(req, fmt)];

    before := r;
    if req.redirectUri.Some? {
      r := r["redirectURL" := fmt.uri(req.redirectUri.value)];
    }
    ApplyOne(before, Entry(Named("redirectURL"), UriText(req.redirectUri, fmt)));
    ApplyAllSnoc(map[], trace, RedirectW(req, fmt));
    trace := trace + [RedirectW(req, fmt)];

    before := r;
    if req.notificationUrl.Some? {
      r := r["notificationURL" := req.notificationUrl.value];
    }
    ApplyOne(before, Entry(Named("notificationURL"), req.notificationUrl));
    ApplyAllSnoc(map[], trace, NotificationW(req));
    AppendFour(done, MaxAgeW(req, fmt), MaxUsesW(req, fmt), RedirectW(req, fmt), NotificationW(req));
  }

  /** Metadata, pass-through parameters, configuration, and the accepted and excluded payment
      methods, which a null or empty collection skips by returning early. */
  method PutLists(data: map<string, string>, req: PaymentRequest, fmt: Formatters, ghost done: seq<seq<Entry>>)
    returns (r: map<string, string>)
    requires data == ApplyAll(map[], done)
    ensures r == ApplyAll(map[], done + ListsParts(req, fmt))
  {
    r := data;
    ghost var trace := done;

    // metadata
    if req.metaData.Some? {
      r := PutMetaData(r, req.metaData.value, fmt);
    } else {
      assert MetaDataW([], fmt) == [];
    }
    ApplyAllSnoc(map[], trace, MetaDataPartW(req, fmt));
    trace := trace + [MetaDataPartW(req, fmt)];

    // pass-through parameters
    if req.parameter.Some? && |req.parameter.value| > 0 {
      r := PutParameters(r, req.parameter.value, fmt);
    }
    ApplyAllSnoc(map[], trace, PassThroughW(req, fmt));
    trace := trace + [PassThroughW(req, fmt)];

    // payment-method configuration
    if req.paymentMethodConfig.Some? && |req.paymentMethodConfig.value| > 0 {
      r := PutConfig(r, req.paymentMethodConfig.value, fmt);
    }
    ApplyAllSnoc(map[], trace, ConfigPartW(req, fmt));
    trace := trace + [ConfigPartW(req, fmt)];

    // accepted and excluded payment methods
    ApplyAllSnoc(map[], trace, AcceptedPartW(req));
    AppendFour(done, MetaDataPartW(req, fmt), PassThroughW(req, fmt), ConfigPartW(req, fmt), AcceptedPartW(req));
    if req.acceptedPaymentMethods.None? || |req.acceptedPaymentMethods.value| <= 0 {
      return;
    }
    r := PutAccepted(r, req.acceptedPaymentMethods.value);
  }

  // ---------------------------------------------------------------------------------------
  // Reading the dictionary

  /** The pass-through parameters in their place. */
  lemma PassThroughAt(req: PaymentRequest, fmt: Formatters)
    ensures |Parts(req, fmt)| == |PAYMENT_SECTIONS|
    ensures Parts(req, fmt)[PASS_THROUGH] == PassThroughW(req, fmt)
  {
    assert Parts(req, fmt)[PASS_THROUGH] == ListsParts(req, fmt)[1];
  }

  /** Every part but the pass-through parameters writes only keys of its own section. */
  lemma PartsSections(req: PaymentRequest, fmt: Formatters)
    ensures |Parts(req, fmt)| == |PAYMENT_SECTIONS|
    ensures forall i | 0 <= i < |PAYMENT_SECTIONS| && i != PASS_THROUGH ::
      forall e | e in Parts(req, fmt)[i] :: SectionOf(e.key) == PAYMENT_SECTIONS[i]
  {
    HeadSections(req, fmt);
    TermsSections(req, fmt);
    LimitsSections(req, fmt);
    ListsSections(req, fmt);
    var h, t, l, x := HeadParts(req, fmt), TermsParts(req, fmt), LimitsParts(req, fmt), ListsParts(req, fmt);
    forall i | 0 <= i < |PAYMENT_SECTIONS| && i != PASS_THROUGH
      ensures forall e | e in Parts(req, fmt)[i] :: SectionOf(e.key) == PAYMENT_SECTIONS[i]
    {
      if i < 4 {
        ConcatFirst(h, t, l, x, i);
        ConcatFirst(HEAD_SECTIONS, TERMS_SECTIONS, LIMITS_SECTIONS, LISTS_SECTIONS, i);
      } else if i < 9 {
        ConcatSecond(h, t, l, x, i - 4);
        ConcatSecond(HEAD_SECTIONS, TERMS_SECTIONS, LIMITS_SECTIONS, LISTS_SECTIONS, i - 4);
      } else if i < 13 {
        ConcatThird(h, t, l, x, i - 9);
        ConcatThird(HEAD_SECTIONS, TERMS_SECTIONS, LIMITS_SECTIONS, LISTS_SECTIONS, i - 9);
      } else {
        ConcatFourth(h, t, l, x, i - 13);
        ConcatFourth(HEAD_SECTIONS, TERMS_SECTIONS, LIMITS_SECTIONS, LISTS_SECTIONS, i - 13);
      }
    }
  }

  lemma HeadSections(req: PaymentRequest, fmt: Formatters)
    ensures forall i | 0 <= i < 4 :: forall e | e in HeadParts(req, fmt)[i] :: SectionOf(e.key) == HEAD_SECTIONS[i]
  {
    forall i | 0 <= i < 4
      ensures forall e | e in HeadParts(req, fmt)[i] :: SectionOf(e.key) == HEAD_SECTIONS[i]
    {
      if i == 0 {
        assert SectionOf(Named("reference")) == Section.Reference;
      } else if i == 1 {
        SenderPartSection(req);
      } else if i == 2 {
        assert SectionOf(Named("currency")) == Currency;
      } else {
        ItemsPartSection(req, fmt);
      }
    }
  }

  lemma SenderPartSection(req: PaymentRequest)
    ensures forall e | e in SenderPartW(req) :: SectionOf(e.key) == Section.Sender
  {
    if req.sender.Some? {
      SenderSection(req.sender.value);
    }
  }

  lemma ItemsPartSection(req: PaymentRequest, fmt: Formatters)
    ensures forall e | e in ItemsPartW(req, fmt) :: SectionOf(e.key) == Items
  {
    if req.items.Some? {
      ItemsSection(req.items.value, fmt);
    }
  }

  lemma TermsSections(req: PaymentRequest, fmt: Formatters)
    ensures forall i | 0 <= i < 5 :: forall e | e in TermsParts(req, fmt)[i] :: SectionOf(e.key) == TERMS_SECTIONS[i]
  {
    forall i | 0 <= i < 5
      ensures forall e | e in TermsParts(req, fmt)[i] :: SectionOf(e.key) == TERMS_SECTIONS[i]
    {
      if i == 0 {
        PreApprovalPartSection(req, fmt);
      } else if i < 4 {
        TermsNameSections();
      } else {
        ShippingPartSection(req, fmt);
      }
    }
  }

  /** The sections of the keys the single-key parts of the second group write. */
  lemma TermsNameSections()
    ensures SectionOf(Named("reviewUrl")) == Review
    ensures SectionOf(Named("preApprovalCode")) == PreApprovalCode
    ensures SectionOf(Named("extraAmount")) == ExtraAmount
  {
  }

  lemma PreApprovalPartSection(req: PaymentRequest, fmt: Formatters)
    ensures forall e | e in PreApprovalPartW(req, fmt) :: SectionOf(e.key) == Section.PreApproval
  {
    if req.preApproval.Some? {
      PreApprovalSection(req.preApproval.value, fmt);
    }
  }

  lemma ShippingPartSection(req: PaymentRequest, fmt: Formatters)
    ensures forall e | e in ShippingPartW(req, fmt) :: SectionOf(e.key) == Section.Shipping
  {
    if req.shipping.Some? {
      ShippingSection(req.shipping.value, fmt);
    }
  }

  lemma LimitsSections(req: PaymentRequest, fmt: Formatters)
    ensures forall i | 0 <= i < 4 :: forall e | e in LimitsParts(req, fmt)[i] :: SectionOf(e.key) == LIMITS_SECTIONS[i]
  {
    forall i | 0 <= i < 4
      ensures forall e | e in LimitsParts(req, fmt)[i] :: SectionOf(e.key) == LIMITS_SECTIONS[i]
    {
      LimitsNameSections();
    }
  }

  /** The sections of the keys the parts of the third group write. */
  lemma LimitsNameSections()
    ensures SectionOf(Named("maxAge")) == MaxAge
    ensures SectionOf(Named("maxUses")) == MaxUses
    ensures SectionOf(Named("redirectURL")) == Redirect
    ensures SectionOf(Named("notificationURL")) == Notification
  {
  }

  lemma ListsSections(req: PaymentRequest, fmt: Formatters)
    ensures forall i | 0 <= i < 4 && i != 1 :: forall e | e in ListsParts(req, fmt)[i] :: SectionOf(e.key) == LISTS_SECTIONS[i]
  {
    forall i | 0 <= i < 4 && i != 1
      ensures forall e | e in ListsParts(req, fmt)[i] :: SectionOf(e.key) == LISTS_SECTIONS[i]
    {
      if i == 0 {
        MetaDataSection(Elements(req.metaData), fmt);
      } else if i == 2 {
        ConfigPartSection(req, fmt);
      } else {
        AcceptedPartSection(req);
      }
    }
  }

  lemma ConfigPartSection(req: PaymentRequest, fmt: Formatters)
    ensures forall e | e in ConfigPartW(req, fmt) :: SectionOf(e.key) == PaymentMethodConfig
  {
    if req.paymentMethodConfig.Some? {
      ConfigSection(req.paymentMethodConfig.value, fmt);
    }
  }

  lemma AcceptedPartSection(req: PaymentRequest)
    ensures forall e | e in AcceptedPartW(req) :: SectionOf(e.key) == AcceptedPaymentMethods
  {
    if req.acceptedPaymentMethods.Some? {
      AcceptedSection(req.acceptedPaymentMethods.value);
    }
  }

  /** No two parts but the pass-through parameters share a section. */
  lemma PaymentSectionsDistinct()
    ensures forall i | 0 <= i < |PAYMENT_SECTIONS| && i != PASS_THROUGH ::
      PAYMENT_SECTIONS[i] != PassThrough && PAYMENT_SECTIONS[i] != Unclaimed
    ensures forall i, j | 0 <= i < j < |PAYMENT_SECTIONS| && i != PASS_THROUGH && j != PASS_THROUGH ::
      PAYMENT_SECTIONS[i] != PAYMENT_SECTIONS[j]
    ensures SenderAddress !in PAYMENT_SECTIONS
  {
  }

  /** The value of an owned key: what its own part wrote, unless a pass-through parameter
      of the same name replaces it; the configuration and the accepted and excluded methods
      are written after the parameters and replace them instead. */
  lemma PaymentKeyValue(req: PaymentRequest, fmt: Formatters, k: Key, t: nat)
    requires t < |PAYMENT_SECTIONS| && t != PASS_THROUGH && PAYMENT_SECTIONS[t] == SectionOf(k)
    ensures |Parts(req, fmt)| == |PAYMENT_SECTIONS|
    ensures Get(Encode(req, fmt), Render(k))
         == if t < PASS_THROUGH then Override(Passed(req, fmt, Render(k)), LookupKey(Parts(req, fmt)[t], k))
            else Override(LookupKey(Parts(req, fmt)[t], k), Passed(req, fmt, Render(k)))
  {
    PassThroughAt(req, fmt);
    PartsSections(req, fmt);
    PaymentSectionsDistinct();
    OwnedKeyValue(Parts(req, fmt), PAYMENT_SECTIONS, PASS_THROUGH, k);
  }

  /** A string that is not the rendering of any key the encoder owns holds exactly what the
      pass-through parameters give it. */
  lemma PaymentForeignValue(req: PaymentRequest, fmt: Formatters, s: string)
    requires forall k: Key | Owned(k) :: Render(k) != s
    ensures Get(Encode(req, fmt), s) == Passed(req, fmt, s)
  {
    PassThroughAt(req, fmt);
    PartsSections(req, fmt);
    PaymentSectionsDistinct();
    ForeignValue(Parts(req, fmt), PAYMENT_SECTIONS, PASS_THROUGH, s);
  }

  /** The payment encoder writes no sender address: those keys hold only what a pass-through
      parameter gives them. */
  lemma PaymentSenderAddressValue(req: PaymentRequest, fmt: Formatters, k: Key)
    requires SectionOf(k) == SenderAddress
    ensures Get(Encode(req, fmt), Render(k)) == Passed(req, fmt, Render(k))
  {
    PassThroughAt(req, fmt);
    PartsSections(req, fmt);
    PaymentSectionsDistinct();
    OwnedKeyValue(Parts(req, fmt), PAYMENT_SECTIONS, PASS_THROUGH, k);
  }

  /** The value of a key of a part of the first group, by its place in the group. */
  lemma HeadKeyValue(req: PaymentRequest, fmt: Formatters, k: Key, i: nat)
    requires i < |HEAD_SECTIONS| && SectionOf(k) == HEAD_SECTIONS[i]
    ensures Get(Encode(req, fmt), Render(k))
         == Override(Passed(req, fmt, Render(k)), LookupKey(HeadParts(req, fmt)[i], k))
  {
    ConcatFirst(HeadParts(req, fmt), TermsParts(req, fmt), LimitsParts(req, fmt), ListsParts(req, fmt), i);
    ConcatFirst(HEAD_SECTIONS, TERMS_SECTIONS, LIMITS_SECTIONS, LISTS_SECTIONS, i);
    PaymentKeyValue(req, fmt, k, i);
  }

  lemma TermsKeyValue(req: PaymentRequest, fmt: Formatters, k: Key, i: nat)
    requires i < |TERMS_SECTIONS| && SectionOf(k) == TERMS_SECTIONS[i]
    ensures Get(Encode(req, fmt), Render(k))
         == Override(Passed(req, fmt, Render(k)), LookupKey(TermsParts(req, fmt)[i], k))
  {
    ConcatSecond(HeadParts(req, fmt), TermsParts(req, fmt), LimitsParts(req, fmt), ListsParts(req, fmt), i);
    ConcatSecond(HEAD_SECTIONS, TERMS_SECTIONS, LIMITS_SECTIONS, LISTS_SECTIONS, i);
    PaymentKeyValue(req, fmt, k, 4 + i);
  }

  lemma LimitsKeyValue(req: PaymentRequest, fmt: Formatters, k: Key, i: nat)
    requires i < |LIMITS_SECTIONS| && SectionOf(k) == LIMITS_SECTIONS[i]
    ensures Get(Encode(req, fmt), Render(k))
         == Override(Passed(req, fmt, Render(k)), LookupKey(LimitsParts(req, fmt)[i], k))
  {
    ConcatThird(HeadParts(req, fmt), TermsParts(req, fmt), LimitsParts(req, fmt), ListsParts(req, fmt), i);
    ConcatThird(HEAD_SECTIONS, TERMS_SECTIONS, LIMITS_SECTIONS, LISTS_SECTIONS, i);
    PaymentKeyValue(req, fmt, k, 9 + i);
  }

  /** The metadata stands before the pass-through parameters; the configuration and the
      accepted methods after them. */
  lemma ListsKeyValue(req: PaymentRequest, fmt: Formatters, k: Key, i: nat)
    requires i < |LISTS_SECTIONS| && i != 1 && SectionOf(k) == LISTS_SECTIONS[i]
    ensures Get(Encode(req, fmt), Render(k))
         == if i == 0 then Override(Passed(req, fmt, Render(k)), LookupKey(ListsParts(req, fmt)[i], k))
            else Override(LookupKey(ListsParts(req, fmt)[i], k), Passed(req, fmt, Render(k)))
  {
    ConcatFourth(HeadParts(req, fmt), TermsParts(req, fmt), LimitsParts(req, fmt), ListsParts(req, fmt), i);
    ConcatFourth(HEAD_SECTIONS, TERMS_SECTIONS, LIMITS_SECTIONS, LISTS_SECTIONS, i);
    PaymentKeyValue(req, fmt, k, 13 + i);
  }

  // The single-key parts. Each key holds the request's value unless a pass-through parameter
  // of the same name replaces it; a null field writes nothing, so the key then holds only
  // what a parameter gives it.

  /** The reference, when the request has one. */
  lemma PaymentReferenceValue(req: PaymentRequest, fmt: Formatters)
    ensures Get(Encode(req, fmt), "reference")
         == Override(Passed(req, fmt, "reference"), req.reference)
  {
    assert SectionOf(Named("reference")) == Section.Reference;
    HeadKeyValue(req, fmt, Named("reference"), 0);
    LookupKeySingle(Named("reference"), req.reference);
  }

  /** The currency, when the request has one. */
  lemma PaymentCurrencyValue(req: PaymentRequest, fmt: Formatters)
    ensures Get(Encode(req, fmt), "currency")
         == Override(Passed(req, fmt, "currency"), req.currency)
  {
    assert SectionOf(Named("currency")) == Currency;
    HeadKeyValue(req, fmt, Named("currency"), 2);
    LookupKeySingle(Named("currency"), req.currency);
  }

  /** The review address is written only with a pre-approval. */
  lemma ReviewLookup(req: PaymentRequest, fmt: Formatters)
    ensures LookupKey(ReviewW(req, fmt), Named("reviewUrl"))
         == if req.preApproval.Some? && req.reviewUri.Some? then Some(fmt.uri(req.reviewUri.value)) else None
  {
    if req.preApproval.Some? {
      LookupKeySingle(Named("reviewUrl"), UriText(req.reviewUri, fmt));
    }
  }

  /** The review address is written only for a request that also carries a pre-approval. */
  lemma PaymentReviewValue(req: PaymentRequest, fmt: Formatters)
    ensures Get(Encode(req, fmt), "reviewUrl")
         == Override(Passed(req, fmt, "reviewUrl"), if req.preApproval.Some? && req.reviewUri.Some? then Some(fmt.uri(req.reviewUri.value)) else None)
  {
    assert SectionOf(Named("reviewUrl")) == Review;
    TermsKeyValue(req, fmt, Named("reviewUrl"), 1);
    ReviewLookup(req, fmt);
  }

  /** The pre-approval code, when the request has one. */
  lemma PaymentPreApprovalCodeValue(req: PaymentRequest, fmt: Formatters)
    ensures Get(Encode(req, fmt), "preApprovalCode")
         == Override(Passed(req, fmt, "preApprovalCode"), req.preApprovalCode)
  {
    assert SectionOf(Named("preApprovalCode")) == PreApprovalCode;
    TermsKeyValue(req, fmt, Named("preApprovalCode"), 2);
    LookupKeySingle(Named("preApprovalCode"), req.preApprovalCode);
  }

  /** The extra amount, rendered by the decimal formatter. */
  lemma PaymentExtraAmountValue(req: PaymentRequest, fmt: Formatters)
    ensures Get(Encode(req, fmt), "extraAmount")
         == Override(Passed(req, fmt, "extraAmount"), if req.extraAmount.Some? then Some(fmt.decimal(req.extraAmount.value)) else None)
  {
    assert SectionOf(Named("extraAmount")) == ExtraAmount;
    TermsKeyValue(req, fmt, Named("extraAmount"), 3);
    LookupKeySingle(Named("extraAmount"), DecimalText(req.extraAmount, fmt));
  }

  /** The maximum age, in decimal. */
  lemma PaymentMaxAgeValue(req: PaymentRequest, fmt: Formatters)
    ensures Get(Encode(req, fmt), "maxAge")
         == Override(Passed(req, fmt, "maxAge"), if req.maxAge.Some? then Some(fmt.integer(req.maxAge.value)) else None)
  {
    assert SectionOf(Named("maxAge")) == MaxAge;
    LimitsKeyValue(req, fmt, Named("maxAge"), 0);
    LookupKeySingle(Named("maxAge"), IntText(req.maxAge, fmt));
  }

  /** The maximum number of uses, in decimal. */
  lemma PaymentMaxUsesValue(req: PaymentRequest, fmt: Formatters)
    ensures Get(Encode(req, fmt), "maxUses")
         == Override(Passed(req, fmt, "maxUses"), if req.maxUses.Some? then Some(fmt.integer(req.maxUses.value)) else None)
  {
    assert SectionOf(Named("maxUses")) == MaxUses;
    LimitsKeyValue(req, fmt, Named("maxUses"), 1);
    LookupKeySingle(Named("maxUses"), IntText(req.maxUses, fmt));
  }

  /** The redirect address, as text. */
  lemma PaymentRedirectValue(req: PaymentRequest, fmt: Formatters)
    ensures Get(Encode(req, fmt), "redirectURL")
         == Override(Passed(req, fmt, "redirectURL"), if req.redirectUri.Some? then Some(fmt.uri(req.redirectUri.value)) else None)
  {
    assert SectionOf(Named("redirectURL")) == Redirect;
    LimitsKeyValue(req, fmt, Named("redirectURL"), 2);
    LookupKeySingle(Named("redirectURL"), UriText(req.redirectUri, fmt));
  }

  /** The notification address, when the request has one. */
  lemma PaymentNotificationValue(req: PaymentRequest, fmt: Formatters)
    ensures Get(Encode(req, fmt), "notificationURL")
         == Override(Passed(req, fmt, "notificationURL"), req.notificationUrl)
  {
    assert SectionOf(Named("notificationURL")) == Notification;
    LimitsKeyValue(req, fmt, Named("notificationURL"), 3);
    LookupKeySingle(Named("notificationURL"), req.notificationUrl);
  }

  // The parts with several keys. Each key holds what its own part wrote, unless a
  // pass-through parameter of the same name replaces it; the lookup lemmas of each part say
  // what that part writes under each key.

  /** A null sender writes nothing; otherwise the document writes follow the contact writes. */
  lemma SenderPartLookup(req: PaymentRequest, k: Key)
    ensures LookupKey(SenderPartW(req), k)
         == if req.sender.None? then None
            else Override(LookupKey(DocumentsW(Elements(req.sender.value.documents)), k),
                          LookupKey(ContactW(req.sender.value), k))
  {
    if req.sender.Some? {
      LookupKeyConcat(ContactW(req.sender.value), DocumentsW(Elements(req.sender.value.documents)), k);
    }
  }

  /** The sender's contact and document keys: the document writes follow the contact writes
      and a null sender writes nothing. */
  lemma PaymentSenderValue(req: PaymentRequest, fmt: Formatters, k: Key)
    requires SectionOf(k) == Section.Sender
    ensures Get(Encode(req, fmt), Render(k))
         == Override(Passed(req, fmt, Render(k)),
                     if req.sender.None? then None
                     else Override(LookupKey(DocumentsW(Elements(req.sender.value.documents)), k),
                                   LookupKey(ContactW(req.sender.value), k)))
  {
    HeadKeyValue(req, fmt, k, 1);
    SenderPartLookup(req, k);
  }

  /** An empty or null item collection writes nothing. */
  lemma ItemsPartLookup(req: PaymentRequest, fmt: Formatters, k: Key)
    ensures LookupKey(ItemsPartW(req, fmt), k)
         == if req.items.Some? && |req.items.value| > 0 then LookupKey(ItemsW(req.items.value, fmt), k) else None
  {
  }

  /** The item keys; an empty or null item collection writes none of them. */
  lemma PaymentItemsValue(req: PaymentRequest, fmt: Formatters, k: Key)
    requires SectionOf(k) == Items
    ensures Get(Encode(req, fmt), Render(k))
         == Override(Passed(req, fmt, Render(k)),
                     if req.items.Some? && |req.items.value| > 0 then LookupKey(ItemsW(req.items.value, fmt), k) else None)
  {
    HeadKeyValue(req, fmt, k, 3);
    ItemsPartLookup(req, fmt, k);
  }

  /** Field `f` of item `j`, counting from one; an index past the end of the collection
      writes nothing. */
  lemma PaymentItemValue(req: PaymentRequest, fmt: Formatters, f: ItemField, j: nat)
    ensures Get(Encode(req, fmt), Render(Indexed(ItemPrefix(f), j)))
         == Override(Passed(req, fmt, Render(Indexed(ItemPrefix(f), j))),
                     if req.items.Some? && 1 <= j <= |req.items.value| then ItemValue(req.items.value[j - 1], f, fmt)
                     else None)
  {
    ItemKeySection(f, j);
    PaymentItemsValue(req, fmt, Indexed(ItemPrefix(f), j));
    if req.items.Some? && |req.items.value| > 0 {
      ItemsLookup(req.items.value, fmt, f, j);
    }
  }

  lemma PreApprovalPartLookup(req: PaymentRequest, fmt: Formatters, k: Key)
    ensures LookupKey(PreApprovalPartW(req, fmt), k)
         == if req.preApproval.Some? then LookupKey(PreApprovalW(req.preApproval.value, fmt), k) else None
  {
  }

  /** The pre-approval keys; a request without a pre-approval writes none of them. */
  lemma PaymentPreApprovalValue(req: PaymentRequest, fmt: Formatters, k: Key)
    requires SectionOf(k) == Section.PreApproval
    ensures Get(Encode(req, fmt), Render(k))
         == Override(Passed(req, fmt, Render(k)),
                     if req.preApproval.Some? then LookupKey(PreApprovalW(req.preApproval.value, fmt), k) else None)
  {
    TermsKeyValue(req, fmt, k, 0);
    PreApprovalPartLookup(req, fmt, k);
  }

  lemma ShippingPartLookup(req: PaymentRequest, fmt: Formatters, k: Key)
    ensures LookupKey(ShippingPartW(req, fmt), k)
         == if req.shipping.Some? then LookupKey(ShippingW(req.shipping.value, fmt), k) else None
  {
  }

  /** The shipping keys; a request without shipping writes none of them. */
  lemma PaymentShippingValue(req: PaymentRequest, fmt: Formatters, k: Key)
    requires SectionOf(k) == Section.Shipping
    ensures Get(Encode(req, fmt), Render(k))
         == Override(Passed(req, fmt, Render(k)),
                     if req.shipping.Some? then LookupKey(ShippingW(req.shipping.value, fmt), k) else None)
  {
    TermsKeyValue(req, fmt, k, 4);
    ShippingPartLookup(req, fmt, k);
  }

  /** The metadata keys; a null collection writes none of them. */
  lemma PaymentMetaDataValue(req: PaymentRequest, fmt: Formatters, k: Key)
    requires SectionOf(k) == Section.MetaData
    ensures Get(Encode(req, fmt), Render(k))
         == Override(Passed(req, fmt, Render(k)), LookupKey(MetaDataW(Elements(req.metaData), fmt), k))
  {
    ListsKeyValue(req, fmt, k, 0);
  }

  /** A null or empty configuration writes nothing. */
  lemma ConfigPartLookup(req: PaymentRequest, fmt: Formatters, k: Key)
    ensures LookupKey(ConfigPartW(req, fmt), k) == LookupKey(ConfigW(Elements(req.paymentMethodConfig), fmt), k)
  {
    assert ConfigW([], fmt) == [];
  }

  /** The configuration keys are written after the pass-through parameters, so they replace
      a parameter of the same name; a null or empty collection writes none of them. */
  lemma PaymentConfigValue(req: PaymentRequest, fmt: Formatters, k: Key)
    requires SectionOf(k) == PaymentMethodConfig
    ensures Get(Encode(req, fmt), Render(k))
         == Override(LookupKey(ConfigW(Elements(req.paymentMethodConfig), fmt), k), Passed(req, fmt, Render(k)))
  {
    ListsKeyValue(req, fmt, k, 2);
    ConfigPartLookup(req, fmt, k);
  }

  lemma AcceptedPartLookup(req: PaymentRequest, k: Key)
    ensures LookupKey(AcceptedPartW(req), k)
         == if req.acceptedPaymentMethods.Some? && |req.acceptedPaymentMethods.value| > 0
            then LookupKey(AcceptedW(req.acceptedPaymentMethods.value), k) else None
  {
  }

  /** The accepted and excluded methods are written last, so they replace a parameter of the
      same name; a null or empty collection ends the encoding before any of them. */
  lemma PaymentAcceptedValue(req: PaymentRequest, fmt: Formatters, k: Key)
    requires SectionOf(k) == AcceptedPaymentMethods
    ensures Get(Encode(req, fmt), Render(k))
         == Override(if req.acceptedPaymentMethods.Some? && |req.acceptedPaymentMethods.value| > 0
                     then LookupKey(AcceptedW(req.acceptedPaymentMethods.value), k) else None,
                     Passed(req, fmt, Render(k)))
  {
    ListsKeyValue(req, fmt, k, 3);
    AcceptedPartLookup(req, k);
  }
}
