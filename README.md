# icann-rdap core, modelled in Dafny

This project models four pieces of the icann-rdap tool kit (RDAP client, conformance tester and server) and proves properties of them.

- **Conformance checks** (module `Conformance`, `check.dfy`):
  - the six severity classes and their order;
  - the structure labels;
  - the catalogue of numbered checks and the class each check is given;
  - the tree of findings (`Checks`) and `Checks::sub`;
  - the depth-first, class-filtered traversal that reports each matching item with its `[ROOT]/…` path;
  - the `is_checked` membership queries;
  - the `CheckParams` constructors.
- **IANA bootstrap registries** (module `Bootstrap`, `iana.dfy`):
  - the registry URLs and file names;
  - the domain lookup, where the longest matching TLD wins and the first of equal length is kept;
  - the autonomous-system-number lookup, with its "AS" prefix stripping, 32-bit parsing and first range containing the number;
  - the object-tag lookup, which compares tags without regard to ASCII case;
  - the choice of a preferred (HTTPS) URL;
  - the registry error kinds.
- **jCard to contact conversion** (module `Jcard`, `from_vcard.rs` → `from_vcard.dfy`):
  - property lookup by case-insensitive name;
  - text values and the `pref`, `label`, `cc` and `type` parameters;
  - the split of `type` values into JSContact contexts and features;
  - languages, e-mail addresses and phones;
  - postal addresses: street parts, region and country as code or name, and the `cc` override;
  - structured names;
  - the `from_vcard` entry point.
- **Test execution** (module `TestExecution`, `exec.dfy`):
  - normalisation of the expected extension identifiers;
  - the port-defaulting rule.

`text.dfy` (module `Text`) holds the string helpers shared by these modules:
- ASCII case mapping;
- Rust's `starts_with`, `ends_with` and `eq_ignore_ascii_case`;
- Rust's `str::parse` for `u32` and `u64`: an optional `+`, at least one digit, and None on overflow.

`wrappers.dfy` holds `Option` and `Result`.

The model follows the Rust code, including where the code is surprising:
- In the AS lookup, a range whose start does not parse is reported as `InvalidBootstrapInput`. A range whose end does not parse is reported as `InvalidBootstrapService`.
- The domain match is a plain character suffix test, so "org" applies to "foo.borg".
- A postal address is produced for every `adr` property, even one without an address array.

Operations that update local state step by step are methods, each proved equal to a specification function:
- `TraverseChecks`;
- the three registry lookups;
- the postal-address builder and its loops;
- the structured-name reader;
- `NormalizeExtensionIds`.

The properties are proved about those specification functions.

## Model

| member | source | states |
|---|---|---|
| Conformance.ClassOrderIsTotal | icann-rdap-common/src/check/mod.rs:35-89 | the check classes are totally ordered, and the order is the declaration order: Informational < SpecificationNote < StdWarning < StdError < Cidr0Error < IcannError |
| Conformance.CodeRoundTrip | icann-rdap-common/src/check/mod.rs:281-509 | every check's numeric code leads back to that check, and every code lies in 100..2299 |
| Conformance.CodeInjective | icann-rdap-common/src/check/mod.rs:281-509 | no two checks share a code |
| Conformance.CheckItemOf | icann-rdap-common/src/check/mod.rs:511-618 | the item built from a check carries that check |
| Conformance.InformationalChecks | icann-rdap-common/src/check/mod.rs:541-572 | a check is informational iff it is the documentation-domain check or one of the special-use address and AS-number checks |
| Conformance.SpecificationNoteChecks | icann-rdap-common/src/check/mod.rs:524-594 | the specification notes are exactly the missing self link, the empty fn and the two missing-address-record checks |
| Conformance.Cidr0Checks | icann-rdap-common/src/check/mod.rs:585-589 | a check is a Cidr0Error iff its code is in 1900..1999 |
| Conformance.IcannChecks | icann-rdap-common/src/check/mod.rs:591-596 | the ICANN errors are exactly MustUseHttps, AllowOriginNotStar and Ipv6SupportRequiredByIcann |
| Conformance.SecureDnsChecks | icann-rdap-common/src/check/mod.rs:598-612 | every secure-DNS check (codes 2200-2299) is a StdError |
| Conformance.Sub | icann-rdap-common/src/check/mod.rs:139-145 | None iff no child has the label; otherwise the first child with that label |
| Conformance.IsCheckedItem | icann-rdap-common/src/check/mod.rs:258-261 | true iff one of the node's own items has the check |
| Conformance.IsChecked | icann-rdap-common/src/check/mod.rs:253-256 | true iff some tree of the list has the check among its own items |
| Conformance.IsCheckedItemIgnoresChildren | icann-rdap-common/src/check/mod.rs:258-261 | replacing a node's children never changes `is_checked_item` |
| Conformance.TraverseChecks | icann-rdap-common/src/check/mod.rs:223-251 | the visitor calls are exactly `Visits`: the node's matching items in order, then each child's in order. The result is true iff some visit was made, iff some item of the subtree has a class in the filter |
| Conformance.OwnItemVisits | icann-rdap-common/src/check/mod.rs:239-244 | the loop over the node's own items makes one visit per item whose class is in the filter, in item order, all under the node's path |
| Conformance.ChildrenVisits | icann-rdap-common/src/check/mod.rs:245-249 | the loop over the children makes each child's visits in child order, under the node's path; its flag is set iff some child visit was made |
| Conformance.VisitsAreMatchingItems | icann-rdap-common/src/check/mod.rs:223-251 | the items visited are exactly the items of the subtree whose class is in the filter, each once, in depth-first order |
| Conformance.FoundIffVisited | icann-rdap-common/src/check/mod.rs:223-251 | the visitor is called at least once iff some item of the subtree matches the filter |
| Conformance.VisitPathsExtendNodePath | icann-rdap-common/src/check/mod.rs:234-246 | every path given to the visitor starts with the parent path (or `[ROOT]`), `/` and the node's label |
| Conformance.EntityAutnumExample | icann-rdap-common/src/check/mod.rs:733-765 | an entity with an autnum child is visited as `[ROOT]/entity` and then `[ROOT]/entity/autnum` |
| Conformance.NoMatchingClassNoVisit | icann-rdap-common/src/check/mod.rs:652-674 | a filter that matches no item's class yields no visit |
| Conformance.FromParent | icann-rdap-common/src/check/mod.rs:182-189 | only the parent type changes; subcheck, root and unregistered-extension settings are kept |
| Conformance.ForRdap | icann-rdap-common/src/check/mod.rs:191-198 | subchecks on, unregistered extensions disallowed, the response as root and its own type as parent type |
| Conformance.FromParentLaws | icann-rdap-common/src/check/mod.rs:182-189 | deriving twice equals deriving once with the last type; deriving with the current type changes nothing |
| Bootstrap.AfterLast | icann-rdap-common/src/iana.rs:33-37 | the piece after the last separator contains no separator, ends the string, and is preceded by the separator when shorter than the string |
| Bootstrap.AfterLastOfJoin | icann-rdap-common/src/iana.rs:33-37 | the last piece of `prefix + sep + piece` is `piece` when `piece` has no separator |
| Bootstrap.FileNameIsRegistryFile | icann-rdap-common/src/iana.rs:20-38 | the file name of each registry URL is dns.json, asn.json, ipv4.json, ipv6.json or object-tags.json |
| Bootstrap.GetDnsBootstrapUrls | icann-rdap-common/src/iana.rs:83-103 | EmptyService iff some service lacks arrays. NoBootstrapUrls iff no TLD applies. Otherwise the URLs of the service owning the longest applying TLD, the first scanned among equals. No other error occurs |
| Bootstrap.FirstLongestUnique | icann-rdap-common/src/iana.rs:91-98 | the first longest match is unique |
| Bootstrap.RootTldIsSuffix | icann-rdap-common/src/iana.rs:92 | the empty (root) TLD applies to every domain, as the suffix test already says |
| Bootstrap.LongestTldWins | icann-rdap-common/src/iana.rs:353-388 | with "co.uk" and "uk" both applying to "foo.co.uk", "co.uk" is the first longest match |
| Bootstrap.SuffixIsNotLabelAware | icann-rdap-common/src/iana.rs:92 | the suffix test is on characters, so "org" applies to "foo.borg" |
| Bootstrap.TrimAsPrefix | icann-rdap-common/src/iana.rs:107-108 | removes exactly the leading run of a/A/s/S: what is removed is all prefix letters and what remains does not start with one |
| Bootstrap.ParseAsn | icann-rdap-common/src/iana.rs:106-110 | a parsed AS number is below 2^32 |
| Bootstrap.AsnPrefixRoundTrip | icann-rdap-common/src/iana.rs:106-110 | any run of prefix letters before the decimal form of a 32-bit number reads back as that number |
| Bootstrap.TrimAsPrefixSkips | icann-rdap-common/src/iana.rs:107-108 | prefix letters before a digit are all removed |
| Bootstrap.PrefixOnlyQuery | icann-rdap-common/src/iana.rs:106-110 | a query made only of prefix letters is InvalidBootstrapInput |
| Bootstrap.RangeStep | icann-rdap-common/src/iana.rs:115-129 | a range entry either passes or decides: the service's URLs, or one of the two parse errors |
| Bootstrap.RangeStepErrors | icann-rdap-common/src/iana.rs:116-126 | a range entry fails the lookup iff its bounds do not read; an unreadable start is InvalidBootstrapInput, a readable start with an unreadable end InvalidBootstrapService |
| Bootstrap.RangeErrorExamples | icann-rdap-common/src/iana.rs:116-126 | "x-10" fails as InvalidBootstrapInput and "1-x" as InvalidBootstrapService |
| Bootstrap.FirstDone | icann-rdap-common/src/iana.rs:111-134 | the scan passes iff every step passes; otherwise it is the first decisive step |
| Bootstrap.RangesStep | icann-rdap-common/src/iana.rs:115-130 | the ranges of a service decide with its URLs or a parse error, at the first decisive range |
| Bootstrap.AsnServiceStep | icann-rdap-common/src/iana.rs:111-131 | a service decides with EmptyService, a parse error or its last array; never NoBootstrapUrls |
| Bootstrap.AsnLookup | icann-rdap-common/src/iana.rs:106-135 | an unparsable query is InvalidBootstrapInput. URLs come from the last array of a non-empty service. NoBootstrapUrls iff the query parses and every service passes |
| Bootstrap.GetAsnBootstrapUrls | icann-rdap-common/src/iana.rs:106-135 | the loop computes `AsnLookup` |
| Bootstrap.ScanRanges | icann-rdap-common/src/iana.rs:115-130 | the inner loop over a service's ranges computes `RangesStep` |
| Bootstrap.RangesDecidedAt | icann-rdap-common/src/iana.rs:115-130 | the first decisive range decides the service |
| Bootstrap.ServiceDecidedAt | icann-rdap-common/src/iana.rs:111-131 | once the query parses, the first service that does not pass decides the AS lookup |
| Bootstrap.WellFormedRangeStep | icann-rdap-common/src/iana.rs:116-127 | a range with readable bounds decides iff it contains the number, and then gives the URLs |
| Bootstrap.WellFormedServiceStep | icann-rdap-common/src/iana.rs:111-131 | in a well-formed registry, a service decides iff one of its ranges contains the number, and then gives its URLs |
| Bootstrap.WellFormedAsnLookup | icann-rdap-common/src/iana.rs:106-135 | in a well-formed registry, the first service with a range containing the number gives the URLs |
| Bootstrap.WellFormedAsnNotCovered | icann-rdap-common/src/iana.rs:106-135 | in a well-formed registry, a number no range contains gives NoBootstrapUrls |
| Bootstrap.TagStep | icann-rdap-common/src/iana.rs:194-203 | a service passes iff it has a non-empty second array whose first tag differs (ignoring ASCII case). Otherwise it decides with InvalidBootstrapService, EmptyService or its last array |
| Bootstrap.TagLookup | icann-rdap-common/src/iana.rs:192-206 | NoBootstrapUrls iff every service passes; otherwise the result of the first decisive service |
| Bootstrap.GetTagBootstrapUrls | icann-rdap-common/src/iana.rs:192-206 | the loop computes `TagLookup` |
| Bootstrap.TagDecidedAt | icann-rdap-common/src/iana.rs:193-203 | the first service that does not pass decides the tag lookup |
| Bootstrap.WellFormedTagLookup | icann-rdap-common/src/iana.rs:192-206 | when every service has a non-empty tag array, the first service whose tag equals the query up to ASCII case gives its last array |
| Bootstrap.WellFormedTagNotFound | icann-rdap-common/src/iana.rs:192-206 | when every service has a non-empty tag array and none matches, the result is NoBootstrapUrls |
| Bootstrap.MalformedTagService | icann-rdap-common/src/iana.rs:194-198 | reaching a service with no second array gives InvalidBootstrapService, and one with an empty second array EmptyService |
| Bootstrap.TagCaseInsensitive | icann-rdap-common/src/iana.rs:199 | lower- or upper-casing the tag never changes the lookup |
| Bootstrap.FirstHttps | icann-rdap-common/src/iana.rs:214-217 | None iff no URL starts with `https://`; otherwise the first that does |
| Bootstrap.GetPreferredUrl | icann-rdap-common/src/iana.rs:210-220 | EmptyUrlSet iff there are no URLs. Otherwise a member of the list: the first HTTPS URL, or the first URL when none is HTTPS |
| Bootstrap.PreferHttpsExample | icann-rdap-common/src/iana.rs:301-314 | an HTTPS URL is preferred to an HTTP URL listed before it; a lone HTTP URL is kept |
| Text.EqIgnoreAsciiCaseIsLowerEquality | icann-rdap-common/src/iana.rs:199 | comparing without ASCII case is comparing the lower-cased strings |
| Text.ParseDigitsValue | icann-rdap-common/src/iana.rs:107-110 | reading digits succeeds iff the text is a non-empty run of digits whose value fits, and yields that value |
| Text.ParseDecimalRoundTrip | icann-rdap-common/src/iana.rs:107-110 | parsing the decimal rendering of a representable number gives it back |
| Text.ParseUnsignedValue | icann-rdap-common/src/iana.rs:107-110 | reading an unsigned number succeeds iff what follows an optional `+` is a non-empty run of digits whose value fits, and yields that value |
| Text.ParseRejects | icann-rdap-common/src/iana.rs:107-110 | the empty string, a bare `+`, a minus sign and any non-digit are rejected |
| Jcard.FindProperties | icann-rdap-common/src/contact/from_vcard.rs:129-144 | every property returned is an array named `name`, ignoring ASCII case |
| Jcard.FindPropertiesAppend | icann-rdap-common/src/contact/from_vcard.rs:129-144 | the search distributes over concatenation, so order is kept |
| Jcard.FindPropertiesMembers | icann-rdap-common/src/contact/from_vcard.rs:129-144 | a property is found iff it occurs in the jCard under the name |
| Jcard.FindProperty | icann-rdap-common/src/contact/from_vcard.rs:107-121 | a property found is named `name` |
| Jcard.FindPropertyIsFirst | icann-rdap-common/src/contact/from_vcard.rs:107-121 | the single lookup is None iff the search finds nothing, and otherwise the first property found |
| Jcard.GetText | icann-rdap-common/src/contact/from_vcard.rs:160-164 | present iff the fourth element is a string, and then it is that string |
| Jcard.GetTexts | icann-rdap-common/src/contact/from_vcard.rs:171-178 | never an empty list; None iff no property has a text value; otherwise a string is in the list iff it is the text value of one of the properties |
| Jcard.TextsAppend | icann-rdap-common/src/contact/from_vcard.rs:171-178 | the texts of two runs of properties are those of the first followed by those of the second, so the list keeps property order |
| Jcard.FilterMapMembers | icann-rdap-common/src/contact/from_vcard.rs:173-177 | a value is kept iff the mapping gives it for some property |
| Jcard.FilterMapAppend | icann-rdap-common/src/contact/from_vcard.rs:173-177 | filtering distributes over concatenation, so the kept values keep their order |
| Jcard.FilterMapEmpty | icann-rdap-common/src/contact/from_vcard.rs:171-178 | filtering yields nothing iff every property yields nothing |
| Jcard.NonEmpty | icann-rdap-common/src/contact/from_vcard.rs:178 | None iff the list is empty, otherwise the list |
| Jcard.Param | icann-rdap-common/src/contact/from_vcard.rs:187-191 | a parameter is present iff the second element is an object holding the key, and then it is that value |
| Jcard.GetPreference | icann-rdap-common/src/contact/from_vcard.rs:186-193 | a preference is a `u64` read from a string `pref` parameter |
| Jcard.PreferenceRoundTrip | icann-rdap-common/src/contact/from_vcard.rs:186-193 | a `pref` holding the decimal form of a `u64` yields that number |
| Jcard.PreferenceValue | icann-rdap-common/src/contact/from_vcard.rs:186-193 | a preference is present iff `pref` is a string whose text after an optional `+` is a non-empty run of digits with a value below 2^64, and it is that value |
| Jcard.PreferenceRejects | icann-rdap-common/src/contact/from_vcard.rs:186-193 | a `pref` that is not a string, or is empty, a bare `+`, negative or holds a non-digit, yields no preference |
| Jcard.PreferenceExamples | icann-rdap-common/src/contact/from_vcard.rs:186-193 | "+7" and "007" give 7; "x1" and "-1" give none |
| Jcard.GetLabel | icann-rdap-common/src/contact/from_vcard.rs:200-207 | present iff the `label` parameter is a string |
| Jcard.GetCountryCode | icann-rdap-common/src/contact/from_vcard.rs:214-221 | present iff the `cc` parameter is a string |
| Jcard.LoweredStrings | icann-rdap-common/src/contact/from_vcard.rs:243-247 | the lowered string entries are all lower case |
| Jcard.LoweredStringsMembers | icann-rdap-common/src/contact/from_vcard.rs:243-247 | a value is lowered from the array iff it is the ASCII lower-casing of one of its string entries |
| Jcard.LoweredStringsAppend | icann-rdap-common/src/contact/from_vcard.rs:243-247 | lowering distributes over concatenation, so the entries keep their order |
| Jcard.Contexts | icann-rdap-common/src/contact/from_vcard.rs:223-249 | keeps only values from the context list, each drawn from the input |
| Jcard.Features | icann-rdap-common/src/contact/from_vcard.rs:272-278 | keeps only values outside the context list, each drawn from the input |
| Jcard.ContextsMembers | icann-rdap-common/src/contact/from_vcard.rs:223-249 | a value is a context of the list iff it is in the list and in the context list |
| Jcard.FeaturesMembers | icann-rdap-common/src/contact/from_vcard.rs:272-278 | a value is a feature of the list iff it is in the list and not in the context list |
| Jcard.ContextsAppend | icann-rdap-common/src/contact/from_vcard.rs:244-249 | selecting contexts distributes over concatenation, so they keep their order |
| Jcard.FeaturesAppend | icann-rdap-common/src/contact/from_vcard.rs:273-278 | selecting features distributes over concatenation, so they keep their order |
| Jcard.ContextsAndFeaturesPartition | icann-rdap-common/src/contact/from_vcard.rs:223-281 | the contexts and the features together are the list as a multiset: each occurrence lands in exactly one of the two |
| Jcard.GetContexts | icann-rdap-common/src/contact/from_vcard.rs:230-252 | a non-empty list of lower-case contexts, or None |
| Jcard.GetFeatures | icann-rdap-common/src/contact/from_vcard.rs:259-281 | a non-empty list of lower-case non-context values, or None |
| Jcard.SingleTypeIsContextOrFeature | icann-rdap-common/src/contact/from_vcard.rs:235-241 | a single `type` string gives exactly one of a context or a feature: the lower-cased string |
| Jcard.TypeArrayPartition | icann-rdap-common/src/contact/from_vcard.rs:243-251 | the contexts and features of a `type` array are, as a multiset, its lowered string entries; the contexts are exactly the lowered entries in the context list and the features exactly the others |
| Jcard.TypeArrayExample | icann-rdap-common/src/contact/from_vcard.rs:590-596 | `type` ["work", "Voice"] gives contexts ["work"] and features ["voice"] |
| Jcard.GetLangs | icann-rdap-common/src/contact/from_vcard.rs:288-301 | never an empty list |
| Jcard.GetEmails | icann-rdap-common/src/contact/from_vcard.rs:309-324 | never an empty list |
| Jcard.GetPhones | icann-rdap-common/src/contact/from_vcard.rs:331-347 | never an empty list |
| Jcard.LangsFromProperties | icann-rdap-common/src/contact/from_vcard.rs:288-301 | a language is present iff some property has its tag as text value and its preference as `pref` |
| Jcard.EmailsFromProperties | icann-rdap-common/src/contact/from_vcard.rs:309-324 | an e-mail is present iff some property has its address as text value, and its contexts and preference from that property's `type` and `pref` |
| Jcard.PhonesFromProperties | icann-rdap-common/src/contact/from_vcard.rs:331-347 | a phone is present iff some property has its number as text value, and its features, contexts and preference from that property's `type` and `pref` |
| Jcard.RecordsAppend | icann-rdap-common/src/contact/from_vcard.rs:288-347 | languages, e-mails and phones of two runs of properties are those of the first followed by those of the second, so the records keep property order |
| Jcard.PhoneExample | icann-rdap-common/src/contact/from_vcard.rs:590-596 | a `tel` property with `type` ["work", "Voice"] and `pref` "1" gives one phone with that number, feature "voice", context "work" and preference 1 |
| Jcard.RecordsFollowTexts | icann-rdap-common/src/contact/from_vcard.rs:288-347 | a getter that makes one record per text value, keyed by it, lines its records up with the texts |
| Jcard.LangsAreTexts | icann-rdap-common/src/contact/from_vcard.rs:288-301 | languages are present iff texts are, one per text, with tag equal to the text |
| Jcard.EmailsAreTexts | icann-rdap-common/src/contact/from_vcard.rs:309-324 | e-mail addresses are present iff texts are, one per text, the address equal to the text |
| Jcard.PhonesAreTexts | icann-rdap-common/src/contact/from_vcard.rs:331-347 | phones are present iff texts are, one per text, the number equal to the text |
| Jcard.NonEmptyStrings | icann-rdap-common/src/contact/from_vcard.rs:527-532 | the strings kept are all non-empty |
| Jcard.NonEmptyStringsMembers | icann-rdap-common/src/contact/from_vcard.rs:527-532 | a string is kept iff it is non-empty and occurs in the array |
| Jcard.GetStringOrVec | icann-rdap-common/src/contact/from_vcard.rs:518-535 | never an empty list, never an empty string; only from a string or an array; a string gives itself iff non-empty |
| Jcard.Utf8Len | icann-rdap-common/src/contact/from_vcard.rs:420 | the UTF-8 length is at least the number of characters |
| Jcard.CodeExamples | icann-rdap-common/src/contact/from_vcard.rs:420-438 | "QC" and "CA" read as codes; "Canada", "qc" and "Q" do not |
| Jcard.FieldText | icann-rdap-common/src/contact/from_vcard.rs:383-442 | a field is a non-empty string at that index |
| Jcard.StreetParts | icann-rdap-common/src/contact/from_vcard.rs:383-408 | every street part is non-empty |
| Jcard.ReadStreetParts | icann-rdap-common/src/contact/from_vcard.rs:383-408 | the pushes compute `StreetParts`: box, apartment, then the street string or each string of the street array |
| Jcard.PushStreetStrings | icann-rdap-common/src/contact/from_vcard.rs:402-407 | the loop appends exactly the non-empty strings of the street array, in order |
| Jcard.ReadPlaceFields | icann-rdap-common/src/contact/from_vcard.rs:409-443 | locality, postal code, and region and country each split into code or name, as the address array gives them |
| Jcard.BuildPostalAddress | icann-rdap-common/src/contact/from_vcard.rs:357-461 | the mutable locals build exactly `PostalAddressOf(prop)` |
| Jcard.PostalAddressesOf | icann-rdap-common/src/contact/from_vcard.rs:354-463 | one address per `adr` property |
| Jcard.GetPostalAddresses | icann-rdap-common/src/contact/from_vcard.rs:354-464 | None iff there are no properties; otherwise one address per property, in order |
| Jcard.RegionIsCodeOrName | icann-rdap-common/src/contact/from_vcard.rs:416-426 | a non-empty region is exactly one of a code or a name, and a region code is two upper-case bytes |
| Jcard.CountryCodePrefersParameter | icann-rdap-common/src/contact/from_vcard.rs:433-454 | a `cc` parameter is the country code; without one the country field's code is used; the field never gives both a code and a name |
| Jcard.StreetArrayExample | icann-rdap-common/src/contact/from_vcard.rs:804-855 | an empty box is dropped and the street array's strings follow the apartment |
| Jcard.AddressFieldsExample | icann-rdap-common/src/contact/from_vcard.rs:804-855 | "QC" is a region code, "Canada" a country name, "work" a context |
| Jcard.NamePartSlots | icann-rdap-common/src/contact/from_vcard.rs:478 | only strings and arrays fill the slots of a name |
| Jcard.NamePartSlotsAppend | icann-rdap-common/src/contact/from_vcard.rs:478 | slot filtering distributes over concatenation |
| Jcard.SlotValues | icann-rdap-common/src/contact/from_vcard.rs:484-498 | a slot's strings are all non-empty |
| Jcard.NamePartsOf | icann-rdap-common/src/contact/from_vcard.rs:473-515 | a name is present only for an "n" property with an array value, and never with all five parts empty |
| Jcard.NextNamePart | icann-rdap-common/src/contact/from_vcard.rs:478-498 | one `next()` of the filtering iterator: the first remaining slot value, or None when there is none; the rest resumes after it |
| Jcard.GetNameParts | icann-rdap-common/src/contact/from_vcard.rs:473-515 | the five `next()` calls compute `NamePartsOf` |
| Jcard.NextSlotValues | icann-rdap-common/src/contact/from_vcard.rs:483-497 | one `iter.next()` followed by `get_string_or_vec`: started where slot k begins, it yields the strings of slot k (none when there are fewer slots) and leaves the iterator where slot k + 1 begins |
| Jcard.SameSlotsSameName | icann-rdap-common/src/contact/from_vcard.rs:475-477 | the structured name depends only on the slot values of the name array |
| Jcard.NonPartsTakeNoSlot | icann-rdap-common/src/contact/from_vcard.rs:478 | removing a value that is neither a string nor an array from the name array changes nothing |
| Jcard.NamePartsExample | icann-rdap-common/src/contact/from_vcard.rs:553-555 | ["User","Joe","","",["ing. jr","M.Sc."]] gives surname User, given name Joe and both suffixes |
| Jcard.FromVcard | icann-rdap-common/src/contact/from_vcard.rs:53-100 | a contact iff the value is "vcard" (any ASCII case) followed by an array whose properties give some field; then it is that contact |
| Jcard.FullNameGivesContact | icann-rdap-common/src/contact/from_vcard.rs:53-64 | a jCard whose first fn property has a text gives a contact with that full name |
| Jcard.NoContactWithoutProperties | icann-rdap-common/src/contact/from_vcard.rs:53-100 | a value that is not a jCard, or a jCard without properties, gives no contact |
| TestExecution.Either | icann-rdap-cli/src/rt/exec.rs:326-335 | an either-entry is the first id, a bar, then the second id: it begins with the first id and the bar and ends with the bar and the second id |
| TestExecution.GroupIds | icann-rdap-cli/src/rt/exec.rs:323-348 | every group contributes two entries |
| TestExecution.NormalizeExtensionIds | icann-rdap-cli/src/rt/exec.rs:310-350 | UnregisteredExtension iff unregistered ids are disallowed and some caller id is unregistered; otherwise the caller's ids followed by the group entries |
| TestExecution.GroupEntriesLength | icann-rdap-cli/src/rt/exec.rs:323-348 | the groups contribute two entries each |
| TestExecution.GroupEntriesAt | icann-rdap-cli/src/rt/exec.rs:323-348 | group g's entries sit at positions 2g and 2g+1 |
| TestExecution.NormalizedLayout | icann-rdap-cli/src/rt/exec.rs:311-350 | the result is as long as the caller's ids plus two entries per group, starts with the caller's ids unchanged, and places each group's entries in order |
| TestExecution.GroupExamples | icann-rdap-cli/src/rt/exec.rs:363-411 | the gTLD group holds both either-entries; Nro then NroAsn give nro_rdap_profile_0, cidr0, nro_rdap_profile_0 and the ASN either-entry |
| TestExecution.EffectivePort | icann-rdap-cli/src/rt/exec.rs:121-127 | the URL's port when it has one; otherwise 443 iff the scheme is https, and 80 iff it is not |

## Left out

- `execute_tests` and `get_dns_records` (exec.rs): HTTP requests, DNS queries over UDP and task spawning are I/O. Only the port rule is modelled, as `EffectivePort`, over the port the parsed URL reports.
- The IPv4 and IPv6 bootstrap lookups: they rest on a longest-prefix map and CIDR parsing from foreign libraries.
- The `GetChecks` dispatch for responses: the per-type rule bodies live in modules that are not part of this model.
- `CheckItem` display, check messages and `CHECK_CLASS_LEN`: strum-generated text. `StructName` gives the snake_case labels the paths use.
- Serde (de)serialisation. JSON numbers are modelled as integers, since no modelled operation reads them.
- TestExecution.NormalizeExtensionIds: parsing an identifier as a known extension is the parameter `isRegistered`. The identifier strings of the groups are the registered RDAP extension names, taken as constants; the extension enumeration itself is not part of this model.
- Unicode case mapping: `to_lowercase`, `to_uppercase` and `eq_ignore_ascii_case` are modelled on ASCII letters only. Other letters keep their case, unlike Rust's full mapping for the first two.
- The contact, name and address builders: an empty list is taken to become an absent field, so list fields are sequences with `[]` for absent. `Jcard.IsNonEmpty` is assumed to mean "some field is present".
- Bootstrap.GetDnsBootstrapUrls: TLD lengths are counted in characters, not UTF-8 bytes. Both counts order suffixes of the same domain the same way.
- Bootstrap.GetDnsBootstrapUrls, Bootstrap.GetAsnBootstrapUrls, Bootstrap.GetTagBootstrapUrls: `EmptyUrlSet` cannot arise in these lookups. Each one reads the last array of a service only after reading its first, so the service is non-empty.
- Bootstrap.GetAsnBootstrapUrls: the inner loop over a service's ranges is the helper method `ScanRanges`.
- Bootstrap.ScanRanges: a range is split at the first and the last `-`, as `split('-')` then `first`/`last` do.
- Jcard.BuildPostalAddress: the street-part pushes and the place fields are read by helper methods (`ReadStreetParts`, `PushStreetStrings`, `ReadPlaceFields`) instead of inline.
- Conformance.TraverseChecks: the visitor closure is replaced by the returned sequence of its calls (path and item). What the closure does with them is left to the caller.
- Jcard.NextNamePart: the filtering iterator is a position in the name array.
