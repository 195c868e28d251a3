/** The encoder of a recurring pre-approval request (`PreApprovalParse.GetData`).

    The encoder writes, in order: reference, sender (contact, one document, address), the
    pre-approval terms, currency, redirect, review and notification addresses, metadata and
    last the caller's pass-through parameters. Unlike the payment encoder it always writes
    the pre-approval terms, writes the review address without condition, writes the sender's
    address, and writes no items, shipping, limits, configuration or accepted methods. */
module PreApprovalParse {
  import opened Options
  import opened Keys
  import opened ParameterMap
  import opened Domain
  import opened Sections
  import opened PreApprovalSections

  /** The section of each part, in the order the parts are written. */
  const PRE_APPROVAL_SECTIONS: seq<Section> := HEAD_SECTIONS + TAIL_SECTIONS + [PassThrough]

  const HEAD_SECTIONS: seq<Section> := [Section.Reference, Section.Sender, SenderAddress, Section.PreApproval]
  const TAIL_SECTIONS: seq<Section> := [Currency, Redirect, Review, Notification, Section.MetaData]

  /** The pass-through parameters are the last part. */
  const PASS_THROUGH: nat := 9

  function ReferenceW(req: PreApprovalRequest): seq<Entry> {
    [Entry(Named("reference"), req.reference)]
  }

  /** The sender's contact and document, when there is a sender. */
  function SenderPartW(req: PreApprovalRequest): seq<Entry> {
    if req.sender.Some? then PreApprovalSenderW(req.sender.value) else []
  }

  /** The sender's address, when there is a sender with an address. */
  function SenderAddressPartW(req: PreApprovalRequest): seq<Entry> {
    if req.sender.Some? && req.sender.value.address.Some? then SenderAddressW(req.sender.value.address.value)
    else []
  }

  /** The terms are always written. */
  function TermsW(req: PreApprovalRequest, fmt: Formatters): seq<Entry> {
    PreApprovalW(req.preApproval, fmt)
  }

  function CurrencyW(req: PreApprovalRequest): seq<Entry> {
    [Entry(Named("currency"), req.currency)]
  }

  function RedirectW(req: PreApprovalRequest, fmt: Formatters): seq<Entry> {
    [Entry(Named("redirectURL"), UriText(req.redirectUri, fmt))]
  }

  function ReviewW(req: PreApprovalRequest, fmt: Formatters): seq<Entry> {
    [Entry(Named("reviewUrl"), UriText(req.reviewUri, fmt))]
  }

  function NotificationW(req: PreApprovalRequest): seq<Entry> {
    [Entry(Named("notificationURL"), req.notificationUrl)]
  }

  /** The metadata, for a non-empty collection. */
  function MetaDataPartW(req: PreApprovalRequest, fmt: Formatters): seq<Entry> {
    if req.metaData.Some? && |req.metaData.value| > 0 then MetaDataW(req.metaData.value, fmt) else []
  }

  /** The pass-through parameters; a null or empty collection ends the encoding first. */
  function PassThroughW(req: PreApprovalRequest, fmt: Formatters): seq<Entry> {
    if req.parameter.None? || |req.parameter.value| <= 0 then [] else ParameterW(req.parameter.value, fmt)
  }

  /** The writes of each part, in the encoder's order, in the groups `GetData` writes one
      after the other. */
  function Parts(req: PreApprovalRequest, fmt: Formatters): seq<seq<Entry>> {
    HeadParts(req, fmt) + TailParts(req, fmt) + [PassThroughW(req, fmt)]
  }

  function HeadParts(req: PreApprovalRequest, fmt: Formatters): seq<seq<Entry>> {
    [ReferenceW(req), SenderPartW(req), SenderAddressPartW(req), TermsW(req, fmt)]
  }

  function TailParts(req: PreApprovalRequest, fmt: Formatters): seq<seq<Entry>> {
    [CurrencyW(req), RedirectW(req, fmt), ReviewW(req, fmt), NotificationW(req), MetaDataPartW(req, fmt)]
  }

  /** The dictionary the encoder returns. */
  function Encode(req: PreApprovalRequest, fmt: Formatters): map<string, string> {
    ApplyAll(map[], Parts(req, fmt))
  }

  /** The value a pass-through parameter gives the string `s`, if any. */
  function Passed(req: PreApprovalRequest, fmt: Formatters, s: string): Option<string> {
    Lookup(PassThroughW(req, fmt), s)
  }

  method GetData(req: PreApprovalRequest, fmt: Formatters) returns (data: map<string, string>)
    ensures data == Encode(req, fmt)
  {
    data := PutHead(req, fmt);
    data := PutTail(data, req, fmt, HeadParts(req, fmt));

    // pass-through parameters
    ApplyAllSnoc(map[], HeadParts(req, fmt) + TailParts(req, fmt), PassThroughW(req, fmt));
    if req.parameter.None? || |req.parameter.value| <= 0 {
      return;
    }
    data := PutParameters(data, req.parameter.value, fmt);
  }

  /** Reference, sender with its document and address, and the pre-approval terms. */
  method PutHead(req: PreApprovalRequest, fmt: Formatters) returns (data: map<string, string>)
    ensures data == ApplyAll(map[], HeadParts(req, fmt))
  {
    data := map[];
    ghost var before := data;

    // reference
    if req.reference.Some? {
      data := data["reference" := req.reference.value];
    }
    ApplyOne(before, Entry(Named("reference"), req.reference));
    ApplyAllSnoc(map[], [], ReferenceW(req));
    ghost var done := [] + [ReferenceW(req)];

    // sender, with the address inside its block
    ApplyAllSnoc(map[], done, SenderPartW(req));
    ApplyAllSnoc(map[], done + [SenderPartW(req)], SenderAddressPartW(req));
    if req.sender.Some? {
      data := PutPreApprovalSender(data, req.sender.value);
      if req.sender.value.address.Some? {
        data := PutSenderAddress(data, req.sender.value.address.value);
      }
    }
    done := done + [SenderPartW(req)] + [SenderAddressPartW(req)];

    // pre-approval terms
    data := PutPreApproval(data, req.preApproval, fmt);
    ApplyAllSnoc(map[], done, TermsW(req, fmt));
    AppendFour([], ReferenceW(req), SenderPartW(req), SenderAddressPartW(req), TermsW(req, fmt));
    assert [] + HeadParts(req, fmt) == HeadParts(req, fmt);
  }

  /** Currency, the three addresses and the metadata. */
  method PutTail(data: map<string, string>, req: PreApprovalRequest, fmt: Formatters, ghost done: seq<seq<Entry>>)
    returns (r: map<string, string>)
    requires data == ApplyAll(map[], done)
    ensures r == ApplyAll(map[], done + TailParts(req, fmt))
  {
    r := data;
    ghost var trace := done;
    ghost var before := r;

    // currency
    if req.currency.Some? {
      r := r["currency" := req.currency.value];
    }
    ApplyOne(before, Entry(Named("currency"), req.currency));
    ApplyAllSnoc(map[], trace, CurrencyW(req));
    trace := trace + [CurrencyW(req)];

    // redirect address
    before := r;
    if req.redirectUri.Some? {
      r := r["redirectURL" := fmt.uri(req.redirectUri.value)];
    }
    ApplyOne(before, Entry(Named("redirectURL"), UriText(req.redirectUri, fmt)));
    ApplyAllSnoc(map[], trace, RedirectW(req, fmt));
    trace := trace + [RedirectW(req, fmt)];

    // review address
    before := r;
    if req.reviewUri.Some? {
      r := r["reviewUrl" := fmt.uri(req.reviewUri.value)];
    }
    ApplyOne(before, Entry(Named("reviewUrl"), UriText(req.reviewUri, fmt)));
    ApplyAllSnoc(map[], trace, ReviewW(req, fmt));
    trace := trace + [ReviewW(req, fmt)];

    // notification address
    before := r;
    if req.notificationUrl.Some? {
      r := r["notificationURL" := req.notificationUrl.value];
    }
    ApplyOne(before, Entry(Named("notificationURL"), req.notificationUrl));
    ApplyAllSnoc(map[], trace, NotificationW(req));
    trace := trace + [NotificationW(req)];

    // metadata
    if req.metaData.Some? && |req.metaData.value| > 0 {
      r := PutMetaData(r, req.metaData.value, fmt);
    }
    ApplyAllSnoc(map[], trace, MetaDataPartW(req, fmt));
    AppendFive(done, CurrencyW(req), RedirectW(req, fmt), ReviewW(req, fmt), NotificationW(req),
               MetaDataPartW(req, fmt));
  }

  // ---------------------------------------------------------------------------------------
  // Reading the dictionary

  lemma PassThroughAt(req: PreApprovalRequest, fmt: Formatters)
    ensures |Parts(req, fmt)| == |PRE_APPROVAL_SECTIONS|
    ensures Parts(req, fmt)[PASS_THROUGH] == PassThroughW(req, fmt)
  {
  }

  /** Every part but the pass-through parameters writes only keys of its own section. */
  lemma PartsSections(req: PreApprovalRequest, fmt: Formatters)
    ensures |Parts(req, fmt)| == |PRE_APPROVAL_SECTIONS|
    ensures forall i | 0 <= i < |PRE_APPROVAL_SECTIONS| && i != PASS_THROUGH ::
      forall e | e in Parts(req, fmt)[i] :: SectionOf(e.key) == PRE_APPROVAL_SECTIONS[i]
  {
    HeadSections(req, fmt);
    TailSections(req, fmt);
    var h, t := HeadParts(req, fmt), TailParts(req, fmt);
    assert Parts(req, fmt) == h + t + [PassThroughW(req, fmt)];
    forall i | 0 <= i < |PRE_APPROVAL_SECTIONS| && i != PASS_THROUGH
      ensures forall e | e in Parts(req, fmt)[i] :: SectionOf(e.key) == PRE_APPROVAL_SECTIONS[i]
    {
      ConcatLeft(h + t, [PassThroughW(req, fmt)], i);
      ConcatLeft(HEAD_SECTIONS + TAIL_SECTIONS, [PassThrough], i);
      if i < 4 {
        ConcatLeft(h, t, i);
        ConcatLeft(HEAD_SECTIONS, TAIL_SECTIONS, i);
      } else {
        ConcatRight(h, t, i - 4);
        ConcatRight(HEAD_SECTIONS, TAIL_SECTIONS, i - 4);
      }
    }
  }

  lemma HeadSections(req: PreApprovalRequest, fmt: Formatters)
    ensures forall i | 0 <= i < 4 :: forall e | e in HeadParts(req, fmt)[i] :: SectionOf(e.key) == HEAD_SECTIONS[i]
  {
    forall i | 0 <= i < 4
      ensures forall e | e in HeadParts(req, fmt)[i] :: SectionOf(e.key) == HEAD_SECTIONS[i]
    {
      if i == 0 {
        assert SectionOf(Named("reference")) == Section.Reference;
      } else if i == 1 {
        SenderPartSection(req);
      } else if i == 2 {
        SenderAddressPartSection(req);
      } else {
        PreApprovalSection(req.preApproval, fmt);
      }
    }
  }

  lemma SenderPartSection(req: PreApprovalRequest)
    ensures forall e | e in SenderPartW(req) :: SectionOf(e.key) == Section.Sender
  {
    if req.sender.Some? {
      PreApprovalSenderSection(req.sender.value);
    }
  }

  lemma SenderAddressPartSection(req: PreApprovalRequest)
    ensures forall e | e in SenderAddressPartW(req) :: SectionOf(e.key) == SenderAddress
  {
    if req.sender.Some? && req.sender.value.address.Some? {
      SenderAddressSection(req.sender.value.address.value);
    }
  }

  lemma TailSections(req: PreApprovalRequest, fmt: Formatters)
    ensures forall i | 0 <= i < 5 :: forall e | e in TailParts(req, fmt)[i] :: SectionOf(e.key) == TAIL_SECTIONS[i]
  {
    forall i | 0 <= i < 5
      ensures forall e | e in TailParts(req, fmt)[i] :: SectionOf(e.key) == TAIL_SECTIONS[i]
    {
      if i < 4 {
        TailNameSections();
      } else {
        MetaDataPartSection(req, fmt);
      }
    }
  }

  /** The sections of the keys the single-key parts of the second group write. */
  lemma TailNameSections()
    ensures SectionOf(Named("currency")) == Currency
    ensures SectionOf(Named("redirectURL")) == Redirect
    ensures SectionOf(Named("reviewUrl")) == Review
    ensures SectionOf(Named("notificationURL")) == Notification
  {
  }

  lemma MetaDataPartSection(req: PreApprovalRequest, fmt: Formatters)
    ensures forall e | e in MetaDataPartW(req, fmt) :: SectionOf(e.key) == Section.MetaData
  {
    if req.metaData.Some? {
      MetaDataSection(req.metaData.value, fmt);
    }
  }

  /** No two parts but the pass-through parameters share a section. */
  lemma PreApprovalSectionsDistinct()
    ensures forall i | 0 <= i < |PRE_APPROVAL_SECTIONS| && i != PASS_THROUGH ::
      PRE_APPROVAL_SECTIONS[i] != PassThrough && PRE_APPROVAL_SECTIONS[i] != Unclaimed
    ensures forall i, j | 0 <= i < j < |PRE_APPROVAL_SECTIONS| && i != PASS_THROUGH && j != PASS_THROUGH ::
      PRE_APPROVAL_SECTIONS[i] != PRE_APPROVAL_SECTIONS[j]
  {
  }

  /** The value of an owned key: what its own part wrote, unless a pass-through parameter of
      the same name replaces it, since the parameters are written last. */
  lemma PreApprovalKeyValue(req: PreApprovalRequest, fmt: Formatters, k: Key, t: nat)
    requires t < PASS_THROUGH && PRE_APPROVAL_SECTIONS[t] == SectionOf(k)
    ensures |Parts(req, fmt)| == |PRE_APPROVAL_SECTIONS|
    ensures Get(Encode(req, fmt), Render(k))
         == Override(Passed(req, fmt, Render(k)), LookupKey(Parts(req, fmt)[t], k))
  {
    PassThroughAt(req, fmt);
    PartsSections(req, fmt);
    PreApprovalSectionsDistinct();
    OwnedKeyValue(Parts(req, fmt), PRE_APPROVAL_SECTIONS, PASS_THROUGH, k);
  }

  /** A string that is not the rendering of any key the encoder owns holds exactly what the
      pass-through parameters give it. */
  lemma PreApprovalForeignValue(req: PreApprovalRequest, fmt: Formatters, s: string)
    requires forall k: Key | Owned(k) :: Render(k) != s
    ensures Get(Encode(req, fmt), s) == Passed(req, fmt, s)
  {
    PassThroughAt(req, fmt);
    PartsSections(req, fmt);
    PreApprovalSectionsDistinct();
    ForeignValue(Parts(req, fmt), PRE_APPROVAL_SECTIONS, PASS_THROUGH, s);
  }

  /** The pre-approval encoder writes none of the payment-only sections (items, pre-approval
      code, extra amount, shipping, limits, configuration, accepted methods): those keys hold
      only what a pass-through parameter gives them. */
  lemma PreApprovalUnwrittenValue(req: PreApprovalRequest, fmt: Formatters, k: Key)
    requires Owned(k) && SectionOf(k) !in PRE_APPROVAL_SECTIONS
    ensures Get(Encode(req, fmt), Render(k)) == Passed(req, fmt, Render(k))
  {
    PassThroughAt(req, fmt);
    PartsSections(req, fmt);
    PreApprovalSectionsDistinct();
    OwnedKeyValue(Parts(req, fmt), PRE_APPROVAL_SECTIONS, PASS_THROUGH, k);
  }

  /** The value of a key of a part of the first group, by its place in the group. */
  lemma HeadKeyValue(req: PreApprovalRequest, fmt: Formatters, k: Key, i: nat)
    requires i < |HEAD_SECTIONS| && SectionOf(k) == HEAD_SECTIONS[i]
    ensures Get(Encode(req, fmt), Render(k))
         == Override(Passed(req, fmt, Render(k)), LookupKey(HeadParts(req, fmt)[i], k))
  {
    ConcatLeft(HeadParts(req, fmt) + TailParts(req, fmt), [PassThroughW(req, fmt)], i);
    ConcatLeft(HeadParts(req, fmt), TailParts(req, fmt), i);
    ConcatLeft(HEAD_SECTIONS + TAIL_SECTIONS, [PassThrough], i);
    ConcatLeft(HEAD_SECTIONS, TAIL_SECTIONS, i);
    PreApprovalKeyValue(req, fmt, k, i);
  }

  /** The value of a key of a part of the second group, by its place in the group. */
  lemma TailKeyValue(req: PreApprovalRequest, fmt: Formatters, k: Key, i: nat)
    requires i < |TAIL_SECTIONS| && SectionOf(k) == TAIL_SECTIONS[i]
    ensures Get(Encode(req, fmt), Render(k))
         == Override(Passed(req, fmt, Render(k)), LookupKey(TailParts(req, fmt)[i], k))
  {
    ConcatLeft(HeadParts(req, fmt) + TailParts(req, fmt), [PassThroughW(req, fmt)], 4 + i);
    ConcatRight(HeadParts(req, fmt), TailParts(req, fmt), i);
    ConcatLeft(HEAD_SECTIONS + TAIL_SECTIONS, [PassThrough], 4 + i);
    ConcatRight(HEAD_SECTIONS, TAIL_SECTIONS, i);
    PreApprovalKeyValue(req, fmt, k, 4 + i);
  }

  // The single-key parts. Each key holds the request's value unless a pass-through parameter
  // of the same name replaces it; a null field writes nothing.

  lemma PreApprovalReferenceValue(req: PreApprovalRequest, fmt: Formatters)
    ensures Get(Encode(req, fmt), "reference") == Override(Passed(req, fmt, "reference"), req.reference)
  {
    assert SectionOf(Named("reference")) == Section.Reference;
    HeadKeyValue(req, fmt, Named("reference"), 0);
    LookupKeySingle(Named("reference"), req.reference);
  }

  lemma PreApprovalCurrencyValue(req: PreApprovalRequest, fmt: Formatters)
    ensures Get(Encode(req, fmt), "currency") == Override(Passed(req, fmt, "currency"), req.currency)
  {
    assert SectionOf(Named("currency")) == Currency;
    TailKeyValue(req, fmt, Named("currency"), 0);
    LookupKeySingle(Named("currency"), req.currency);
  }

  lemma PreApprovalRedirectValue(req: PreApprovalRequest, fmt: Formatters)
    ensures Get(Encode(req, fmt), "redirectURL")
         == Override(Passed(req, fmt, "redirectURL"),
                     if req.redirectUri.Some? then Some(fmt.uri(req.redirectUri.value)) else None)
  {
    assert SectionOf(Named("redirectURL")) == Redirect;
    TailKeyValue(req, fmt, Named("redirectURL"), 1);
    LookupKeySingle(Named("redirectURL"), UriText(req.redirectUri, fmt));
  }

  /** Unlike the payment encoder, the review address is written whenever it is present. */
  lemma PreApprovalReviewValue(req: PreApprovalRequest, fmt: Formatters)
    ensures Get(Encode(req, fmt), "reviewUrl")
         == Override(Passed(req, fmt, "reviewUrl"),
                     if req.reviewUri.Some? then Some(fmt.uri(req.reviewUri.value)) else None)
  {
    assert SectionOf(Named("reviewUrl")) == Review;
    TailKeyValue(req, fmt, Named("reviewUrl"), 2);
    LookupKeySingle(Named("reviewUrl"), UriText(req.reviewUri, fmt));
  }

  lemma PreApprovalNotificationValue(req: PreApprovalRequest, fmt: Formatters)
    ensures Get(Encode(req, fmt), "notificationURL")
         == Override(Passed(req, fmt, "notificationURL"), req.notificationUrl)
  {
    assert SectionOf(Named("notificationURL")) == Notification;
    TailKeyValue(req, fmt, Named("notificationURL"), 3);
    LookupKeySingle(Named("notificationURL"), req.notificationUrl);
  }

  // The parts with several keys.

  /** A null sender writes nothing. */
  lemma SenderPartLookup(req: PreApprovalRequest, k: Key)
    ensures LookupKey(SenderPartW(req), k)
         == if req.sender.Some? then LookupKey(PreApprovalSenderW(req.sender.value), k) else None
  {
  }

  /** The sender's contact keys and the CPF key; a null sender writes none of them. */
  lemma PreApprovalSenderValue(req: PreApprovalRequest, fmt: Formatters, k: Key)
    requires SectionOf(k) == Section.Sender
    ensures Get(Encode(req, fmt), Render(k))
         == Override(Passed(req, fmt, Render(k)),
                     if req.sender.Some? then LookupKey(PreApprovalSenderW(req.sender.value), k) else None)
  {
    HeadKeyValue(req, fmt, k, 1);
    SenderPartLookup(req, k);
  }

  /** A field of the address, when there is a sender with an address. */
  lemma SenderAddressPartLookup(req: PreApprovalRequest, f: AddressField)
    ensures LookupKey(SenderAddressPartW(req), Named(SenderAddressName(f)))
         == if req.sender.Some? && req.sender.value.address.Some?
            then AddressValue(req.sender.value.address.value, f) else None
  {
    if req.sender.Some? && req.sender.value.address.Some? {
      SenderAddressLookup(req.sender.value.address.value, f);
    }
  }

  /** Field `f` of the sender's address, when there is a sender with an address. */
  lemma PreApprovalSenderAddressValue(req: PreApprovalRequest, fmt: Formatters, f: AddressField)
    ensures Get(Encode(req, fmt), SenderAddressName(f))
         == Override(Passed(req, fmt, SenderAddressName(f)),
                     if req.sender.Some? && req.sender.value.address.Some?
                     then AddressValue(req.sender.value.address.value, f) else None)
  {
    SenderAddressKeySection(f);
    HeadKeyValue(req, fmt, Named(SenderAddressName(f)), 2);
    SenderAddressPartLookup(req, f);
  }

  /** The pre-approval keys, which the encoder always writes. */
  lemma PreApprovalTermsValue(req: PreApprovalRequest, fmt: Formatters, k: Key)
    requires SectionOf(k) == Section.PreApproval
    ensures Get(Encode(req, fmt), Render(k))
         == Override(Passed(req, fmt, Render(k)), LookupKey(PreApprovalW(req.preApproval, fmt), k))
  {
    HeadKeyValue(req, fmt, k, 3);
  }

  /** A null or empty collection writes nothing. */
  lemma MetaDataPartLookup(req: PreApprovalRequest, fmt: Formatters, k: Key)
    ensures LookupKey(MetaDataPartW(req, fmt), k) == LookupKey(MetaDataW(Elements(req.metaData), fmt), k)
  {
    assert MetaDataW([], fmt) == [];
  }

  /** The metadata keys; a null or empty collection writes none of them. */
  lemma PreApprovalMetaDataValue(req: PreApprovalRequest, fmt: Formatters, k: Key)
    requires SectionOf(k) == Section.MetaData
    ensures Get(Encode(req, fmt), Render(k))
         == Override(Passed(req, fmt, Render(k)), LookupKey(MetaDataW(Elements(req.metaData), fmt), k))
  {
    TailKeyValue(req, fmt, k, 4);
    MetaDataPartLookup(req, fmt, k);
  }
}
