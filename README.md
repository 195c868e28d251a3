# PagSeguro request encoders in Dafny

This project models the two request encoders of the PagSeguro payment-gateway client.
`PaymentParse.GetData` turns a one-time payment request into the flat string-to-string
dictionary that is later form-encoded and sent to the gateway.
`PreApprovalParse.GetData` does the same for a recurring pre-approval agreement.

Both encoders walk the request object and write parameters one after another into a
`Dictionary<string, string>`. Most writes are guarded by a null check. Repeated data uses
1-based indexed keys (`itemId3`, `metadataItemKey2`, `paymentMethodConfigKey1_1`). The
caller's pass-through parameters can name any key. A later write to a key replaces an
earlier one.

The model keeps that imperative shape and adds a specification beside it.

- **`ParameterMap`** holds the dictionary, a `map<string, string>`, and the writes that fill
  it. A write is an `Entry(key, value)`; a value of `None` is a write its null check skipped.
  - `Apply` performs writes in order.
  - `Lookup` is the independent "last performed write wins" reading of the same writes.
  - `ApplyGet` proves the two agree.
- **`Keys`** keeps parameter names structured (fixed name, name + index, name + index + `_1`,
  pass-through text). It assigns each key to the section of the request that writes it and
  proves that `Render` is injective on the encoders' own keys, so no section can overwrite
  another.
- **`Sections`, `PaymentSections` and `PreApprovalSections`** model each block of the
  encoders twice:
  - a function listing its writes;
  - a method performing them on the dictionary (with loops and their invariants for the
    item, document, metadata, parameter, configuration and payment-method lists), whose
    `ensures` ties its result to that function.

  Lemmas then state what every key of the block holds.
- **`PaymentParse` and `PreApprovalParse`** model `GetData` as a method that performs the
  blocks in the source's order. Its result is proved equal to `Encode`, the dictionary the
  blocks' writes leave. The lemmas about `Encode` give the final value of every key. It is
  what the key's own block wrote, combined with any pass-through parameter of the same
  name:
  - the parameter wins when it is written later;
  - the block wins when the block is written after the parameters, which is the case for the
    payment-method configuration and the accepted and excluded methods of a payment.

  Keys that are no key of the encoder's own hold only what the pass-through parameters give
  them.

Renderings done by framework and utility code are fields of a `Formatters` record passed
to the encoders, so every property holds for every such rendering. These are the decimal
formatter, double-to-int, fixed-point `ToString("F")`, integer `ToString()`, the
`yyyy-MM-dd` date format, `Uri.ToString()`, the shipping-type enumeration name and the
blank-string test. The comma-to-period replacement, `string.Join(",", …)`, the index
counters' decimal text, the `T01:00:00.45-03:00` suffix and the CPF document-type literal
are modelled concretely.

For a manual charge the code writes the day-of key its period selects, so a period
outside the six known strings writes none. `Sections.AtMostOneDayOf` states: at most one,
and none without a manual charge. `Sections.PreApprovalManualLookup` gives the key each
period selects.

## Model

| member | source | states |
|---|---|---|
| Domain.ReplaceCommasSpec | source/Uol.PagSeguro/Parse/PaymentParse.cs:108-109 | `.Replace(",", ".")` keeps the length, turns every comma into a period, leaves every other character in place and leaves no comma |
| Keys.NatToString | source/Uol.PagSeguro/Parse/PaymentParse.cs:81-84 | the index counter's text is a non-empty run of decimal digits, one digit exactly for indices below 10 |
| Keys.NatToStringInjective | source/Uol.PagSeguro/Parse/PaymentParse.cs:84-96 | different index counters give different key suffixes |
| Keys.OwnedKeyEndings | source/Uol.PagSeguro/Parse/PaymentParse.cs:84-96 | every fixed name and index prefix the encoders write ends in a letter |
| Keys.ShapedRenderInjective | source/Uol.PagSeguro/Parse/PaymentParse.cs:239-243 | a name, a name plus index and a name plus index plus `_1`, with names ending in a letter, never render to the same string unless they are the same key |
| Keys.RenderInjective | source/Uol.PagSeguro/Parse/PaymentParse.cs:30-290 | two different keys of the encoder's own sections never render to the same dictionary key, so no section overwrites another |
| ParameterMap.Lookup | source/Uol.PagSeguro/Parse/PaymentParse.cs:33-34 | a string holds no written value exactly when no performed write targets it |
| ParameterMap.ApplyGet | source/Uol.PagSeguro/Parse/PaymentParse.cs:30-290 | after a run of dictionary writes each key holds its last performed write, or its former value when no write touches it |
| ParameterMap.LookupConcat | source/Uol.PagSeguro/Parse/PaymentParse.cs:30-290 | of two runs of writes, a write of the later run wins |
| ParameterMap.ApplyConcat | source/Uol.PagSeguro/Parse/PaymentParse.cs:30-290 | performing two runs of writes is performing the first and then the second |
| ParameterMap.LookupKey | source/Uol.PagSeguro/Parse/PaymentParse.cs:33-34 | a key holds no value exactly when every write of it is skipped |
| ParameterMap.LookupKeyConcat | source/Uol.PagSeguro/Parse/PaymentParse.cs:56-67 | of two runs of writes of a structured key, a write of the later run wins |
| ParameterMap.LookupKeyUnique | source/Uol.PagSeguro/Parse/PaymentParse.cs:154-176 | a key only one write targets holds that write's value, or nothing when the write is skipped |
| ParameterMap.LookupKeyDistinct | source/Uol.PagSeguro/Parse/PaymentParse.cs:154-176 | in writes to distinct keys each key holds its own write's value |
| ParameterMap.LookupRendered | source/Uol.PagSeguro/Parse/PaymentParse.cs:30-290 | among the encoder's own keys a lookup by rendered name finds the write of the structured key |
| ParameterMap.ApplyAllUntouched | source/Uol.PagSeguro/Parse/PaymentParse.cs:30-290 | a key no part writes keeps its former value |
| ParameterMap.ApplyAllOne | source/Uol.PagSeguro/Parse/PaymentParse.cs:30-290 | a key only one part writes is decided by that part alone |
| ParameterMap.ApplyAllTwo | source/Uol.PagSeguro/Parse/PaymentParse.cs:214-247 | a key that two parts write holds the later part's write when it happens, otherwise the earlier part's |
| ParameterMap.OwnedKeyValue | source/Uol.PagSeguro/Parse/PaymentParse.cs:30-290 | when every part but the pass-through part writes only its own section and no two parts share a section, an owned key holds its own part's write, combined with a same-named pass-through write by write order, or only the pass-through write for a section no part has |
| ParameterMap.ForeignValue | source/Uol.PagSeguro/Parse/PaymentParse.cs:214-227 | a string that is no owned key's rendering holds only what the pass-through part wrote |
| Sections.Put | source/Uol.PagSeguro/Parse/PaymentParse.cs:33-34 | a guarded write adds one more entry to the run of writes performed so far |
| Sections.Skip | source/Uol.PagSeguro/Parse/PaymentParse.cs:33-34 | a write whose null check fails leaves the dictionary unchanged |
| Sections.PutContact | source/Uol.PagSeguro/Parse/PaymentParse.cs:39-53 | the sender's name, e-mail and phone writes leave the dictionary `ContactW` describes |
| Sections.ContactLookup | source/Uol.PagSeguro/Parse/PaymentParse.cs:39-53 | name and e-mail keys hold those fields when present; area code and phone number keys hold theirs only when there is a phone; no document key is written |
| Sections.ContactSection | source/Uol.PagSeguro/Parse/PaymentParse.cs:39-53 | the contact writes use only sender keys |
| Sections.PutPreApproval | source/Uol.PagSeguro/Parse/PaymentParse.cs:103-128 | the pre-approval block leaves the dictionary `PreApprovalW` describes |
| Sections.PutBaseTerms | source/Uol.PagSeguro/Parse/PaymentParse.cs:103-109 | the seven unconditional pre-approval writes leave the dictionary `BaseTermsW` describes |
| Sections.PutManualTerms | source/Uol.PagSeguro/Parse/PaymentParse.cs:111-128 | for a manual charge, the three extra terms and the selected day-of write leave the dictionary `ManualTermsW` describes |
| Sections.PutDayOf | source/Uol.PagSeguro/Parse/PaymentParse.cs:117-127 | the yearly, month-based and weekly period tests perform the day-of writes of `ManualTermsW` |
| Sections.ManualTermsSkipped | source/Uol.PagSeguro/Parse/PaymentParse.cs:111 | without a manual charge the manual block writes nothing |
| Sections.PreApprovalKeysDistinct | source/Uol.PagSeguro/Parse/PaymentParse.cs:103-127 | the pre-approval block writes each key at most once |
| Sections.PreApprovalBaseLookup | source/Uol.PagSeguro/Parse/PaymentParse.cs:103-109 | charge, name, details and period are always written as given; the final date is the rendered date followed by `T01:00:00.45-03:00`; the two amounts are fixed-point text with commas replaced by periods |
| Sections.PreApprovalManualLookup | source/Uol.PagSeguro/Parse/PaymentParse.cs:111-127 | initial date, maximum amount and maximum payments per period are written exactly for a manual charge; the day of year exactly for a manual yearly charge, the day of month for a manual monthly, bimonthly, trimonthly or semiannual one, the day of week for a manual weekly one |
| Sections.AtMostOneDayOf | source/Uol.PagSeguro/Parse/PaymentParse.cs:117-127 | at most one day-of key is written, and none unless the charge is manual |
| Sections.PreApprovalSection | source/Uol.PagSeguro/Parse/PaymentParse.cs:103-127 | the pre-approval writes use only pre-approval keys |
| Sections.KeptMetaDataMembers | source/Uol.PagSeguro/Parse/PaymentParse.cs:202-203 | every emitted metadata entry has a key and a value that are not blank, every such entry of the list is emitted, nothing else is, and there are at most as many as in the list |
| Sections.KeptMetaDataConcat | source/Uol.PagSeguro/Parse/PaymentParse.cs:200-211 | the loop emits entries in list order: the entries emitted from two runs of the list are those of the first run followed by those of the second |
| Sections.MetaDataStep | source/Uol.PagSeguro/Parse/PaymentParse.cs:200-211 | one more loop step emits the entry under the next index when it is kept and writes nothing otherwise |
| Sections.PutMetaData | source/Uol.PagSeguro/Parse/PaymentParse.cs:197-211 | the metadata loop leaves the dictionary `MetaDataW` describes |
| Sections.PutMetaDataEntry | source/Uol.PagSeguro/Parse/PaymentParse.cs:205-210 | the key, value and optional group writes of one kept entry under its index |
| Sections.MetaDataEntryLookup | source/Uol.PagSeguro/Parse/PaymentParse.cs:206-210 | one emitted entry's keys hold its key, value and group text at its own index and nothing at any other |
| Sections.MetaDataLookup | source/Uol.PagSeguro/Parse/PaymentParse.cs:199-211 | the metadata keys with index j hold the j-th kept entry for j from 1 to the number kept, the group key only for an entry with a group, and nothing for any other index |
| Sections.MetaDataContiguous | source/Uol.PagSeguro/Parse/PaymentParse.cs:199-207 | the key and value indices run without gaps from 1 to the number of kept entries |
| Sections.MetaDataSection | source/Uol.PagSeguro/Parse/PaymentParse.cs:196-211 | the metadata writes use only metadata keys |
| Sections.ParameterW | source/Uol.PagSeguro/Parse/PaymentParse.cs:217-226 | the parameter writes use only pass-through keys |
| Sections.PutParameters | source/Uol.PagSeguro/Parse/PaymentParse.cs:217-226 | the parameter loop leaves the dictionary `ParameterW` describes |
| Sections.ParameterAbsent | source/Uol.PagSeguro/Parse/PaymentParse.cs:219-225 | a name is passed through exactly when some parameter with non-blank key and value is written under it (its key, followed by its group when it has one) |
| Sections.ParameterLastWins | source/Uol.PagSeguro/Parse/PaymentParse.cs:217-226 | a name holds the value of the last kept parameter written under it |
| PaymentSections.PutDocuments | source/Uol.PagSeguro/Parse/PaymentParse.cs:56-67 | the document loop leaves the dictionary `DocumentsW` describes, skipping null documents |
| PaymentSections.DocumentsLastWins | source/Uol.PagSeguro/Parse/PaymentParse.cs:58-66 | the CPF key holds the last non-null document of the CPF type, the CNPJ key the last of any other type |
| PaymentSections.DocumentsAbsent | source/Uol.PagSeguro/Parse/PaymentParse.cs:58-66 | a document key is written exactly when some non-null document has its type |
| PaymentSections.DocumentKeys | source/Uol.PagSeguro/Parse/PaymentParse.cs:63-66 | documents write only the CPF and CNPJ keys |
| PaymentSections.PutSender | source/Uol.PagSeguro/Parse/PaymentParse.cs:39-68 | the sender block leaves the dictionary `SenderW` describes: contact writes, then documents |
| PaymentSections.SenderSection | source/Uol.PagSeguro/Parse/PaymentParse.cs:39-68 | the sender writes use only sender keys |
| PaymentSections.PutItems | source/Uol.PagSeguro/Parse/PaymentParse.cs:78-97 | the item loop leaves the dictionary `ItemsW` describes, the n-th item under index n |
| PaymentSections.PutItem | source/Uol.PagSeguro/Parse/PaymentParse.cs:83-96 | one item's writes leave the dictionary `ItemW` describes |
| PaymentSections.ItemEntryLookup | source/Uol.PagSeguro/Parse/PaymentParse.cs:83-96 | one item's keys hold its fields at its own index and nothing at any other |
| PaymentSections.ItemsIndexed | source/Uol.PagSeguro/Parse/PaymentParse.cs:78-97 | item keys with index j hold the writes of the j-th item for j from 1 to the number of items, nothing otherwise |
| PaymentSections.ItemsLookup | source/Uol.PagSeguro/Parse/PaymentParse.cs:78-97 | quantity and amount keys exist for every index from 1 to the item count; id, description, weight and shipping cost only for items that have them; no item key for any other index |
| PaymentSections.ItemsSection | source/Uol.PagSeguro/Parse/PaymentParse.cs:76-98 | the item writes use only item keys |
| PaymentSections.ItemKeySection | source/Uol.PagSeguro/Parse/PaymentParse.cs:84-96 | every item key belongs to the items, whatever its index |
| PaymentSections.ItemSection | source/Uol.PagSeguro/Parse/PaymentParse.cs:83-96 | one item's writes use only item keys |
| PaymentSections.PutShipping | source/Uol.PagSeguro/Parse/PaymentParse.cs:145-177 | the shipping block leaves the dictionary `ShippingW` describes |
| PaymentSections.PutShippingAddress | source/Uol.PagSeguro/Parse/PaymentParse.cs:154-176 | the address writes, street first and country last, leave the dictionary `ShippingAddressW` describes |
| PaymentSections.ShippingAddressLookup | source/Uol.PagSeguro/Parse/PaymentParse.cs:154-176 | each shipping address key holds its field when present |
| PaymentSections.ShippingLookup | source/Uol.PagSeguro/Parse/PaymentParse.cs:145-177 | the type key holds the type's name and the cost key the formatted cost when present; an address key holds its field when the address and the field are present |
| PaymentSections.ShippingSection | source/Uol.PagSeguro/Parse/PaymentParse.cs:143-178 | the shipping writes use only shipping keys |
| PaymentSections.KeptConfigMembers | source/Uol.PagSeguro/Parse/PaymentParse.cs:235-236 | every emitted configuration entry has a key and a group that are not blank, every such entry of the list is emitted, nothing else is, and there are at most as many as in the list |
| PaymentSections.KeptConfigConcat | source/Uol.PagSeguro/Parse/PaymentParse.cs:233-246 | the loop emits entries in list order: the entries emitted from two runs of the list are those of the first run followed by those of the second |
| PaymentSections.ConfigStep | source/Uol.PagSeguro/Parse/PaymentParse.cs:233-246 | one more loop step emits the entry under the next index when it is kept and writes nothing otherwise |
| PaymentSections.PutConfig | source/Uol.PagSeguro/Parse/PaymentParse.cs:232-246 | the configuration loop leaves the dictionary `ConfigW` describes |
| PaymentSections.ConfigEntryLookup | source/Uol.PagSeguro/Parse/PaymentParse.cs:238-245 | one emitted entry writes its group, key and value at its own index and nothing at any other |
| PaymentSections.ConfigLookup | source/Uol.PagSeguro/Parse/PaymentParse.cs:232-246 | the j-th kept entry writes its group under `paymentMethodGroup` j, its key under `paymentMethodConfigKey` j `_1` and its value (decimal for the discount-percent key, truncated otherwise) under `paymentMethodConfigValue` j `_1`; nothing for other indices |
| PaymentSections.ConfigSection | source/Uol.PagSeguro/Parse/PaymentParse.cs:230-247 | the configuration writes use only configuration keys |
| PaymentSections.KindGroupsMembers | source/Uol.PagSeguro/Parse/PaymentParse.cs:259-275 | the collected groups of a kind are exactly the groups of the entries of that kind |
| PaymentSections.KindGroupsDistinct | source/Uol.PagSeguro/Parse/PaymentParse.cs:263-264 | no group is collected twice |
| PaymentSections.KindGroupsOrder | source/Uol.PagSeguro/Parse/PaymentParse.cs:263-264 | groups are collected in the order they are first seen |
| PaymentSections.KindNamesLast | source/Uol.PagSeguro/Parse/PaymentParse.cs:266 | the name list that survives is that of the last entry of the kind |
| PaymentSections.KindNamesNone | source/Uol.PagSeguro/Parse/PaymentParse.cs:254-256 | with no entry of the kind the name list stays empty |
| PaymentSections.SplitJoin | source/Uol.PagSeguro/Parse/PaymentParse.cs:280-281 | a non-empty list of comma-free elements is recovered from its comma-joined form |
| PaymentSections.CollectMethods | source/Uol.PagSeguro/Parse/PaymentParse.cs:253-276 | the loop gathers, for each kind, the first-seen distinct groups and the last name list |
| PaymentSections.PutAccepted | source/Uol.PagSeguro/Parse/PaymentParse.cs:253-288 | the accepted and excluded method writes leave the dictionary `AcceptedW` describes |
| PaymentSections.PutMethodPair | source/Uol.PagSeguro/Parse/PaymentParse.cs:278-282 | the group and name writes of one kind happen together, only when both lists are non-empty |
| PaymentSections.AcceptedLookup | source/Uol.PagSeguro/Parse/PaymentParse.cs:278-288 | the accept keys hold the joined groups and names when both are non-empty and are absent otherwise; likewise the exclude keys |
| PaymentSections.AcceptedSection | source/Uol.PagSeguro/Parse/PaymentParse.cs:278-288 | the accepted and excluded writes use only payment-method keys |
| PreApprovalSections.PutSingleDocument | source/Uol.PagSeguro/Parse/PreApprovalParse.cs:60-71 | the document block leaves the dictionary `SingleDocumentW` describes |
| PreApprovalSections.SingleDocumentLookup | source/Uol.PagSeguro/Parse/PreApprovalParse.cs:62-70 | the CPF key holds the only document's value when the list has exactly one non-null document, whatever its type; the CNPJ key is never written |
| PreApprovalSections.PutPreApprovalSender | source/Uol.PagSeguro/Parse/PreApprovalParse.cs:43-71 | the sender block leaves the dictionary `PreApprovalSenderW` describes |
| PreApprovalSections.PreApprovalSenderLookup | source/Uol.PagSeguro/Parse/PreApprovalParse.cs:43-71 | name and e-mail keys hold those fields, area code and phone number keys hold theirs only when there is a phone, the CPF key holds the single document; no CNPJ key |
| PreApprovalSections.PreApprovalSenderSection | source/Uol.PagSeguro/Parse/PreApprovalParse.cs:43-71 | the sender writes use only sender keys |
| PreApprovalSections.PutSenderAddress | source/Uol.PagSeguro/Parse/PreApprovalParse.cs:74-125 | the address writes, country first and street last, leave the dictionary `SenderAddressW` describes |
| PreApprovalSections.SenderAddressLookup | source/Uol.PagSeguro/Parse/PreApprovalParse.cs:79-124 | each sender address key holds its field when present |
| PreApprovalSections.SenderAddressKeySection | source/Uol.PagSeguro/Parse/PreApprovalParse.cs:81-123 | every sender address key belongs to the sender address |
| PreApprovalSections.SenderAddressSection | source/Uol.PagSeguro/Parse/PreApprovalParse.cs:74-125 | the address writes use only sender address keys |
| PaymentParse.GetData | source/Uol.PagSeguro/Parse/PaymentParse.cs:28-291 | the encoder returns the dictionary `Encode` describes |
| PaymentParse.PutHead | source/Uol.PagSeguro/Parse/PaymentParse.cs:32-98 | reference, sender, currency and items, in that order |
| PaymentParse.PutTerms | source/Uol.PagSeguro/Parse/PaymentParse.cs:100-178 | pre-approval with its review address, pre-approval code, extra amount and shipping |
| PaymentParse.PutLimits | source/Uol.PagSeguro/Parse/PaymentParse.cs:180-194 | maximum age and uses, redirect and notification addresses |
| PaymentParse.PutLists | source/Uol.PagSeguro/Parse/PaymentParse.cs:196-290 | metadata, parameters, configuration and payment methods, with the early return for a null or empty method collection |
| PaymentParse.PartsSections | source/Uol.PagSeguro/Parse/PaymentParse.cs:32-290 | every block but the pass-through parameters writes only keys of its own section |
| PaymentParse.PaymentSectionsDistinct | source/Uol.PagSeguro/Parse/PaymentParse.cs:32-290 | no two blocks share a section, and none writes the sender address |
| PaymentParse.PaymentKeyValue | source/Uol.PagSeguro/Parse/PaymentParse.cs:32-290 | an owned key holds its own block's write unless a same-named parameter written later replaces it; the configuration and payment-method blocks, written after the parameters, replace them instead |
| PaymentParse.PaymentForeignValue | source/Uol.PagSeguro/Parse/PaymentParse.cs:214-227 | a string that is no owned key holds exactly what the pass-through parameters give it |
| PaymentParse.PaymentSenderAddressValue | source/Uol.PagSeguro/Parse/PaymentParse.cs:37-69 | sender address keys hold only what a pass-through parameter gives them |
| PaymentParse.HeadKeyValue | source/Uol.PagSeguro/Parse/PaymentParse.cs:32-98 | a key of reference, sender, currency or items holds its block's write unless a parameter replaces it |
| PaymentParse.TermsKeyValue | source/Uol.PagSeguro/Parse/PaymentParse.cs:100-178 | a key of the pre-approval, review, code, extra amount or shipping blocks holds its block's write unless a parameter replaces it |
| PaymentParse.LimitsKeyValue | source/Uol.PagSeguro/Parse/PaymentParse.cs:180-194 | a limit or address key holds its block's write unless a parameter replaces it |
| PaymentParse.ListsKeyValue | source/Uol.PagSeguro/Parse/PaymentParse.cs:196-290 | a metadata key is replaceable by a parameter; configuration and payment-method keys replace one |
| PaymentParse.PaymentReferenceValue | source/Uol.PagSeguro/Parse/PaymentParse.cs:33-34 | `reference` holds the reference when present, unless a parameter replaces it |
| PaymentParse.PaymentCurrencyValue | source/Uol.PagSeguro/Parse/PaymentParse.cs:72-73 | `currency` holds the currency when present |
| PaymentParse.PaymentReviewValue | source/Uol.PagSeguro/Parse/PaymentParse.cs:130-131 | `reviewUrl` is written only when both a pre-approval and a review address are present |
| PaymentParse.PaymentPreApprovalCodeValue | source/Uol.PagSeguro/Parse/PaymentParse.cs:135-136 | `preApprovalCode` holds the code when present |
| PaymentParse.PaymentExtraAmountValue | source/Uol.PagSeguro/Parse/PaymentParse.cs:139-140 | `extraAmount` holds the formatted amount when present |
| PaymentParse.PaymentMaxAgeValue | source/Uol.PagSeguro/Parse/PaymentParse.cs:181-182 | `maxAge` holds the age in decimal when present |
| PaymentParse.PaymentMaxUsesValue | source/Uol.PagSeguro/Parse/PaymentParse.cs:185-186 | `maxUses` holds the count in decimal when present |
| PaymentParse.PaymentRedirectValue | source/Uol.PagSeguro/Parse/PaymentParse.cs:189-190 | `redirectURL` holds the address text when present |
| PaymentParse.PaymentNotificationValue | source/Uol.PagSeguro/Parse/PaymentParse.cs:193-194 | `notificationURL` holds the address when present |
| PaymentParse.PaymentSenderValue | source/Uol.PagSeguro/Parse/PaymentParse.cs:37-69 | a sender key holds the document write, else the contact write, and nothing for a null sender |
| PaymentParse.PaymentItemsValue | source/Uol.PagSeguro/Parse/PaymentParse.cs:76-98 | item keys hold the item writes, none for a null or empty collection |
| PaymentParse.PaymentItemValue | source/Uol.PagSeguro/Parse/PaymentParse.cs:76-98 | field f of item j (from 1) holds that item's field; no key past the end of the collection |
| PaymentParse.PaymentPreApprovalValue | source/Uol.PagSeguro/Parse/PaymentParse.cs:101-128 | pre-approval keys hold the block's writes, none without a pre-approval |
| PaymentParse.PaymentShippingValue | source/Uol.PagSeguro/Parse/PaymentParse.cs:143-178 | shipping keys hold the block's writes, none without shipping |
| PaymentParse.PaymentMetaDataValue | source/Uol.PagSeguro/Parse/PaymentParse.cs:197-211 | metadata keys hold the metadata writes, none for a null collection |
| PaymentParse.PaymentConfigValue | source/Uol.PagSeguro/Parse/PaymentParse.cs:230-247 | configuration keys hold the configuration writes, which replace a same-named parameter |
| PaymentParse.PaymentAcceptedValue | source/Uol.PagSeguro/Parse/PaymentParse.cs:250-288 | payment-method keys hold the accept and exclude writes, which replace a same-named parameter; none for a null or empty collection |
| PreApprovalParse.GetData | source/Uol.PagSeguro/Parse/PreApprovalParse.cs:32-206 | the encoder returns the dictionary `Encode` describes |
| PreApprovalParse.PutHead | source/Uol.PagSeguro/Parse/PreApprovalParse.cs:36-153 | reference, sender with document and address, and the always-written terms |
| PreApprovalParse.PutTail | source/Uol.PagSeguro/Parse/PreApprovalParse.cs:155-188 | currency, the three addresses and the metadata |
| PreApprovalParse.PartsSections | source/Uol.PagSeguro/Parse/PreApprovalParse.cs:36-203 | every block but the pass-through parameters writes only keys of its own section |
| PreApprovalParse.PreApprovalSectionsDistinct | source/Uol.PagSeguro/Parse/PreApprovalParse.cs:36-203 | no two blocks share a section |
| PreApprovalParse.PreApprovalKeyValue | source/Uol.PagSeguro/Parse/PreApprovalParse.cs:36-203 | an owned key holds its own block's write unless a same-named parameter, written last, replaces it |
| PreApprovalParse.PreApprovalForeignValue | source/Uol.PagSeguro/Parse/PreApprovalParse.cs:191-203 | a string that is no owned key holds exactly what the pass-through parameters give it |
| PreApprovalParse.PreApprovalUnwrittenValue | source/Uol.PagSeguro/Parse/PreApprovalParse.cs:32-206 | keys of the payment-only sections hold only what a parameter gives them |
| PreApprovalParse.HeadKeyValue | source/Uol.PagSeguro/Parse/PreApprovalParse.cs:36-153 | a key of the first four blocks holds its block's write unless a parameter replaces it |
| PreApprovalParse.TailKeyValue | source/Uol.PagSeguro/Parse/PreApprovalParse.cs:155-188 | a key of the last five blocks holds its block's write unless a parameter replaces it |
| PreApprovalParse.PreApprovalReferenceValue | source/Uol.PagSeguro/Parse/PreApprovalParse.cs:37-38 | `reference` holds the reference when present |
| PreApprovalParse.PreApprovalCurrencyValue | source/Uol.PagSeguro/Parse/PreApprovalParse.cs:156-157 | `currency` holds the currency when present |
| PreApprovalParse.PreApprovalRedirectValue | source/Uol.PagSeguro/Parse/PreApprovalParse.cs:160-161 | `redirectURL` holds the address text when present |
| PreApprovalParse.PreApprovalReviewValue | source/Uol.PagSeguro/Parse/PreApprovalParse.cs:164-165 | `reviewUrl` holds the address text whenever it is present |
| PreApprovalParse.PreApprovalNotificationValue | source/Uol.PagSeguro/Parse/PreApprovalParse.cs:168-169 | `notificationURL` holds the address when present |
| PreApprovalParse.PreApprovalSenderValue | source/Uol.PagSeguro/Parse/PreApprovalParse.cs:41-71 | sender keys hold the contact and single-document writes, none for a null sender |
| PreApprovalParse.PreApprovalSenderAddressValue | source/Uol.PagSeguro/Parse/PreApprovalParse.cs:74-125 | an address key holds its field when there is a sender with an address |
| PreApprovalParse.PreApprovalTermsValue | source/Uol.PagSeguro/Parse/PreApprovalParse.cs:128-153 | pre-approval keys hold the terms' writes, always performed |
| PreApprovalParse.PreApprovalMetaDataValue | source/Uol.PagSeguro/Parse/PreApprovalParse.cs:172-188 | metadata keys hold the metadata writes, none for a null or empty collection |

## Left out

- Renderings by code outside the two encoders are parameters of every operation (`Formatters`). The model does not fix their text, so no property depends on culture, rounding or the enumeration names. These are `PagSeguroUtil.DecimalFormat` and `DoubleToInt`, `IsEmpty` on a non-null string, `ToString("F")`, integer `ToString()`, `ToString("yyyy-MM-dd")`, `Uri.ToString()` and the shipping-type enumeration name.
- The values of `Charge.Manual`, the `Period` constants and `PaymentMethodConfigKeys.DiscountPercent` are defined outside the two encoders. They take the library's strings (`manual`, `WEEKLY`, …, `DISCOUNT_PERCENT`); the proofs use only that they are distinct.
- Null reference exceptions are not modelled. Nulls the encoders dereference without a check are excluded by the types:
  - a null `PreApproval` on a pre-approval request;
  - a null document type on a payment;
  - null items in the item, metadata, parameter, configuration or payment-method lists;
  - a null name list on a payment method (its `Count` is read).
- A null group of a payment method, or a null string inside its name list, is not modelled: `Contains`, `Add` and `string.Join` accept it and it becomes an empty segment of the joined list.
- `Domain.Blank`: `PagSeguroUtil.IsEmpty` is taken to hold for a null string, so a metadata, parameter or configuration entry with a null key, value or group is skipped; only its result on non-null strings is left open.
- Unguarded writes of null strings are excluded by the types: the pre-approval charge, name, details and period, and a document value.
- The payment's `MetaData != null && MetaData.Items != null` test and the parameter and configuration wrappers' `?.Items` are each one optional collection.
- `item.GetType() == typeof(...)` is a two-valued kind; other payment-method subclasses are not modelled.
- `IDictionary<string, string>` is an immutable `map<string, string>` that the encoders pass along and reassign. Its iteration order and its identity as a mutable object are not modelled, and callers cannot observe them.
- `Keys.NatToString`: the index counters are unbounded naturals, so 32-bit overflow of the `int` counters after 2^31 entries is not modelled.
- The pre-approval document block's `foreach` over a one-element list is modelled as a read of that element.

