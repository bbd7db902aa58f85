/** The conformance-check taxonomy and the checks tree of the RDAP validator:
    the six severity classes, the structure labels, the catalogue of check
    codes with their fixed classification, the tree of findings, the
    class-filtered traversal and the membership queries. */
module Conformance {
  import opened Wrappers
  import Text

  // ---------------------------------------------------------------------
  // Severity classes
  // ---------------------------------------------------------------------

  /** The severity of a check, in increasing order of declaration. */
  datatype CheckClass =
    | Informational
    | SpecificationNote
    | StdWarning
    | StdError
    | Cidr0Error
    | IcannError

  /** Position in the declaration order, which the derived `Ord` follows. */
  function ClassRank(c: CheckClass): (r: nat)
    ensures r < 6
  {
    match c
    case Informational => 0
    case SpecificationNote => 1
    case StdWarning => 2
    case StdError => 3
    case Cidr0Error => 4
    case IcannError => 5
  }

  predicate ClassLe(a: CheckClass, b: CheckClass) {
    ClassRank(a) <= ClassRank(b)
  }

  predicate ClassLt(a: CheckClass, b: CheckClass) {
    ClassRank(a) < ClassRank(b)
  }

  /** The classes form a total order, and it is the declaration order. */
  lemma ClassOrderIsTotal()
    ensures forall a: CheckClass :: ClassLe(a, a)
    ensures forall a: CheckClass, b: CheckClass :: ClassLe(a, b) && ClassLe(b, a) ==> a == b
    ensures forall a: CheckClass, b: CheckClass, c: CheckClass :: ClassLe(a, b) && ClassLe(b, c) ==> ClassLe(a, c)
    ensures forall a: CheckClass, b: CheckClass :: ClassLe(a, b) || ClassLe(b, a)
    ensures ClassLt(Informational, SpecificationNote) && ClassLt(SpecificationNote, StdWarning)
    ensures ClassLt(StdWarning, StdError) && ClassLt(StdError, Cidr0Error) && ClassLt(Cidr0Error, IcannError)
  {
    forall a: CheckClass, b: CheckClass | ClassLe(a, b) && ClassLe(b, a) ensures a == b {
      match a
      case Informational =>
      case SpecificationNote =>
      case StdWarning =>
      case StdError =>
      case Cidr0Error =>
      case IcannError =>
    }
  }

  // ---------------------------------------------------------------------
  // Structure labels
  // ---------------------------------------------------------------------

  /** The part of an RDAP response a node of the checks tree belongs to. */
  datatype RdapStructure =
    | Autnum | Cidr0 | Domain | DomainSearchResults | Entity | EntitySearchResults
    | Events | Error | Help | Handle | HttpData | IpNetwork | Link | Links
    | Nameserver | NameserverSearchResults | NoticeOrRemark | Notices | PublidIds
    | Port43 | RdapConformance | Redacted | Remarks | SecureDns | Status

  /** The snake_case display name of a label, as used in traversal paths. */
  function StructName(s: RdapStructure): string {
    match s
    case Autnum => "autnum"
    case Cidr0 => "cidr0"
    case Domain => "domain"
    case DomainSearchResults => "domain_search_results"
    case Entity => "entity"
    case EntitySearchResults => "entity_search_results"
    case Events => "events"
    case Error => "error"
    case Help => "help"
    case Handle => "handle"
    case HttpData => "http_data"
    case IpNetwork => "ip_network"
    case Link => "link"
    case Links => "links"
    case Nameserver => "nameserver"
    case NameserverSearchResults => "nameserver_search_results"
    case NoticeOrRemark => "notice_or_remark"
    case Notices => "notices"
    case PublidIds => "publid_ids"
    case Port43 => "port43"
    case RdapConformance => "rdap_conformance"
    case Redacted => "redacted"
    case Remarks => "remarks"
    case SecureDns => "secure_dns"
    case Status => "status"
  }

  // ---------------------------------------------------------------------
  // The check catalogue
  // ---------------------------------------------------------------------

  datatype Check =
    // RDAP Conformance 100 - 199
    | RdapConformanceMissing | RdapConformanceInvalidParent | UnknownExtention
    // Link 200 - 299
    | LinkMissingValueProperty | LinkMissingRelProperty | LinkRelatedHasNoType
    | LinkRelatedIsNotRdap | LinkSelfHasNoType | LinkSelfIsNotRdap
    | LinkObjectClassHasNoSelf | LinkMissingHrefProperty
    // Domain Variant 300 - 399
    | VariantEmptyDomain
    // Event 400 - 499
    | EventDateIsAbsent | EventDateIsNotRfc3339 | EventActionIsAbsent
    // Notice Or Remark 500 - 599
    | NoticeOrRemarkDescriptionIsAbsent | NoticeOrRemarkDescriptionIsString
    // Handle 600 - 699
    | HandleIsEmpty | HandleIsNotString
    // Status 700 - 799
    | StatusIsEmpty
    // Role 800 - 899
    | RoleIsEmpty | UnknownRole | RoleIsString
    // LDH Name 900 - 999
    | LdhNameInvalid | LdhNameDocumentation | LdhNameDoesNotMatchUnicode
    // Unicode Name 1000 - 1099
    | UnicodeNameInvalidDomain | UnicodeNameInvalidUnicode
    // Network Or Autnum Name 1100 - 1199
    | NetworkOrAutnumNameIsEmpty | NetworkOrAutnumNameIsNotString
    // Network or Autnum Type 1200 - 1299
    | NetworkOrAutnumTypeIsEmpty | NetworkOrAutnumTypeIsNotString
    // IP Address 1300 - 1399
    | IpAddressMissing | IpAddressMalformed | IpAddressEndBeforeStart
    | IpAddressVersionMismatch | IpAddressMalformedVersion | IpAddressListIsEmpty
    | IpAddressThisNetwork | IpAddressPrivateUse | IpAddressSharedNat
    | IpAddressLoopback | IpAddressLinkLocal | IpAddressUniqueLocal
    | IpAddressDocumentationNet | IpAddressReservedNet | IpAddressArrayIsString
    | IpVersionIsNotString
    // Autnum 1400 - 1499
    | AutnumMissing | AutnumEndBeforeStart | AutnumPrivateUse
    | AutnumDocumentation | AutnumReserved
    // Vcard 1500 - 1599
    | VcardArrayIsEmpty | VcardHasNoFn | VcardFnIsEmpty
    // Port 43 1600 - 1699
    | Port43IsEmpty
    // Public Id 1700 - 1799
    | PublicIdTypeIsAbsent | PublicIdIdentifierIsAbsent
    // HTTP 1800 - 1899
    | CorsAllowOriginRecommended | CorsAllowOriginStarRecommended
    | CorsAllowCredentialsNotRecommended | ContentTypeIsAbsent | ContentTypeIsNotRdap
    // Cidr0 1900 - 1999
    | Cidr0V4PrefixIsAbsent | Cidr0V4LengthIsAbsent | Cidr0V6PrefixIsAbsent
    | Cidr0V6LengthIsAbsent
    // ICANN Profile 2000 - 2099
    | MustUseHttps | AllowOriginNotStar
    // Explicit Testing Errors 2100 - 2199
    | CnameWithoutARecords | CnameWithoutAAAARecords | NoARecords | NoAAAARecords
    | ExpectedExtensionNotFound | Ipv6SupportRequiredByIcann
    // Secure DNS 2200 - 2299
    | DelegationSignedIsString | ZoneSignedIsString | MaxSigLifeIsString
    | KeyDatumAlgorithmIsString | KeyDatumAlgorithmIsOutOfRange
    | KeyDatumFlagsIsString | KeyDatumFlagsIsOutOfRange
    | KeyDatumProtocolIsString | KeyDatumProtocolIsOutOfRange
    | DsDatumAlgorithmIsString | DsDatumAlgorithmIsOutOfRange
    | DsDatumKeyTagIsString | DsDatumKeyTagIsOutOfRange
    | DsDatumDigestTypeIsString | DsDatumDigestTypeIsOutOfRange

  /** The numeric code of a check (its enum discriminant). */
  function Code(c: Check): nat {
    match c
    case RdapConformanceMissing => 100
    case RdapConformanceInvalidParent => 101
    case UnknownExtention => 102
    case LinkMissingValueProperty => 200
    case LinkMissingRelProperty => 201
    case LinkRelatedHasNoType => 202
    case LinkRelatedIsNotRdap => 203
    case LinkSelfHasNoType => 204
    case LinkSelfIsNotRdap => 205
    case LinkObjectClassHasNoSelf => 206
    case LinkMissingHrefProperty => 207
    case VariantEmptyDomain => 300
    case EventDateIsAbsent => 400
    case EventDateIsNotRfc3339 => 401
    case EventActionIsAbsent => 402
    case NoticeOrRemarkDescriptionIsAbsent => 500
    case NoticeOrRemarkDescriptionIsString => 501
    case HandleIsEmpty => 600
    case HandleIsNotString => 601
    case StatusIsEmpty => 700
    case RoleIsEmpty => 800
    case UnknownRole => 801
    case RoleIsString => 802
    case LdhNameInvalid => 900
    case LdhNameDocumentation => 901
    case LdhNameDoesNotMatchUnicode => 902
    case UnicodeNameInvalidDomain => 1000
    case UnicodeNameInvalidUnicode => 1001
    case NetworkOrAutnumNameIsEmpty => 1100
    case NetworkOrAutnumNameIsNotString => 1101
    case NetworkOrAutnumTypeIsEmpty => 1200
    case NetworkOrAutnumTypeIsNotString => 1201
    case IpAddressMissing => 1300
    case IpAddressMalformed => 1301
    case IpAddressEndBeforeStart => 1302
    case IpAddressVersionMismatch => 1303
    case IpAddressMalformedVersion => 1304
    case IpAddressListIsEmpty => 1305
    case IpAddressThisNetwork => 1306
    case IpAddressPrivateUse => 1307
    case IpAddressSharedNat => 1308
    case IpAddressLoopback => 1309
    case IpAddressLinkLocal => 1310
    case IpAddressUniqueLocal => 1311
    case IpAddressDocumentationNet => 1312
    case IpAddressReservedNet => 1313
    case IpAddressArrayIsString => 1314
    case IpVersionIsNotString => 1315
    case AutnumMissing => 1400
    case AutnumEndBeforeStart => 1401
    case AutnumPrivateUse => 1402
    case AutnumDocumentation => 1403
    case AutnumReserved => 1404
    case VcardArrayIsEmpty => 1500
    case VcardHasNoFn => 1501
    case VcardFnIsEmpty => 1502
    case Port43IsEmpty => 1600
    case PublicIdTypeIsAbsent => 1700
    case PublicIdIdentifierIsAbsent => 1701
    case CorsAllowOriginRecommended => 1800
    case CorsAllowOriginStarRecommended => 1801
    case CorsAllowCredentialsNotRecommended => 1802
    case ContentTypeIsAbsent => 1803
    case ContentTypeIsNotRdap => 1804
    case Cidr0V4PrefixIsAbsent => 1900
    case Cidr0V4LengthIsAbsent => 1901
    case Cidr0V6PrefixIsAbsent => 1902
    case Cidr0V6LengthIsAbsent => 1903
    case MustUseHttps => 2000
    case AllowOriginNotStar => 2001
    case CnameWithoutARecords => 2100
    case CnameWithoutAAAARecords => 2101
    case NoARecords => 2102
    case NoAAAARecords => 2103
    case ExpectedExtensionNotFound => 2104
    case Ipv6SupportRequiredByIcann => 2105
    case DelegationSignedIsString => 2200
    case ZoneSignedIsString => 2201
    case MaxSigLifeIsString => 2202
    case KeyDatumAlgorithmIsString => 2203
    case KeyDatumAlgorithmIsOutOfRange => 2204
    case KeyDatumFlagsIsString => 2205
    case KeyDatumFlagsIsOutOfRange => 2206
    case KeyDatumProtocolIsString => 2207
    case KeyDatumProtocolIsOutOfRange => 2208
    case DsDatumAlgorithmIsString => 2213
    case DsDatumAlgorithmIsOutOfRange => 2214
    case DsDatumKeyTagIsString => 2215
    case DsDatumKeyTagIsOutOfRange => 2216
    case DsDatumDigestTypeIsString => 2217
    case DsDatumDigestTypeIsOutOfRange => 2218
  }

  /** The check with a given code (the derived `FromRepr`), if any. */
  function CheckFromCode(n: nat): (r: Option<Check>)
  {
    CheckInBand(n / 100, n % 100)
  }

  /** The check numbered `offset` within the hundred `band`, if any. */
  function CheckInBand(band: nat, offset: nat): Option<Check> {
    match band
    case 1 =>
      (match offset
       case 0 => Some(RdapConformanceMissing)
       case 1 => Some(RdapConformanceInvalidParent)
       case 2 => Some(UnknownExtention)
       case _ => None)
    case 2 =>
      (match offset
       case 0 => Some(LinkMissingValueProperty)
       case 1 => Some(LinkMissingRelProperty)
       case 2 => Some(LinkRelatedHasNoType)
       case 3 => Some(LinkRelatedIsNotRdap)
       case 4 => Some(LinkSelfHasNoType)
       case 5 => Some(LinkSelfIsNotRdap)
       case 6 => Some(LinkObjectClassHasNoSelf)
       case 7 => Some(LinkMissingHrefProperty)
       case _ => None)
    case 3 =>
      (match offset
       case 0 => Some(VariantEmptyDomain)
       case _ => None)
    case 4 =>
      (match offset
       case 0 => Some(EventDateIsAbsent)
       case 1 => Some(EventDateIsNotRfc3339)
       case 2 => Some(EventActionIsAbsent)
       case _ => None)
    case 5 =>
      (match offset
       case 0 => Some(NoticeOrRemarkDescriptionIsAbsent)
       case 1 => Some(NoticeOrRemarkDescriptionIsString)
       case _ => None)
    case 6 =>
      (match offset
       case 0 => Some(HandleIsEmpty)
       case 1 => Some(HandleIsNotString)
       case _ => None)
    case 7 =>
      (match offset
       case 0 => Some(StatusIsEmpty)
       case _ => None)
    case 8 =>
      (match offset
       case 0 => Some(RoleIsEmpty)
       case 1 => Some(UnknownRole)
       case 2 => Some(RoleIsString)
       case _ => None)
    case 9 =>
      (match offset
       case 0 => Some(LdhNameInvalid)
       case 1 => Some(LdhNameDocumentation)
       case 2 => Some(LdhNameDoesNotMatchUnicode)
       case _ => None)
    case 10 =>
      (match offset
       case 0 => Some(UnicodeNameInvalidDomain)
       case 1 => Some(UnicodeNameInvalidUnicode)
       case _ => None)
    case 11 =>
      (match offset
       case 0 => Some(NetworkOrAutnumNameIsEmpty)
       case 1 => Some(NetworkOrAutnumNameIsNotString)
       case _ => None)
    case 12 =>
      (match offset
       case 0 => Some(NetworkOrAutnumTypeIsEmpty)
       case 1 => Some(NetworkOrAutnumTypeIsNotString)
       case _ => None)
    case 13 =>
      (match offset
       case 0 => Some(IpAddressMissing)
       case 1 => Some(IpAddressMalformed)
       case 2 => Some(IpAddressEndBeforeStart)
       case 3 => Some(IpAddressVersionMismatch)
       case 4 => Some(IpAddressMalformedVersion)
       case 5 => Some(IpAddressListIsEmpty)
       case 6 => Some(IpAddressThisNetwork)
       case 7 => Some(IpAddressPrivateUse)
       case 8 => Some(IpAddressSharedNat)
       case 9 => Some(IpAddressLoopback)
       case 10 => Some(IpAddressLinkLocal)
       case 11 => Some(IpAddressUniqueLocal)
       case 12 => Some(IpAddressDocumentationNet)
       case 13 => Some(IpAddressReservedNet)
       case 14 => Some(IpAddressArrayIsString)
       case 15 => Some(IpVersionIsNotString)
       case _ => None)
    case 14 =>
      (match offset
       case 0 => Some(AutnumMissing)
       case 1 => Some(AutnumEndBeforeStart)
       case 2 => Some(AutnumPrivateUse)
       case 3 => Some(AutnumDocumentation)
       case 4 => Some(AutnumReserved)
       case _ => None)
    case 15 =>
      (match offset
       case 0 => Some(VcardArrayIsEmpty)
       case 1 => Some(VcardHasNoFn)
       case 2 => Some(VcardFnIsEmpty)
       case _ => None)
    case 16 =>
      (match offset
       case 0 => Some(Port43IsEmpty)
       case _ => None)
    case 17 =>
      (match offset
       case 0 => Some(PublicIdTypeIsAbsent)
       case 1 => Some(PublicIdIdentifierIsAbsent)
       case _ => None)
    case 18 =>
      (match offset
       case 0 => Some(CorsAllowOriginRecommended)
       case 1 => Some(CorsAllowOriginStarRecommended)
       case 2 => Some(CorsAllowCredentialsNotRecommended)
       case 3 => Some(ContentTypeIsAbsent)
       case 4 => Some(ContentTypeIsNotRdap)
       case _ => None)
    case 19 =>
      (match offset
       case 0 => Some(Cidr0V4PrefixIsAbsent)
       case 1 => Some(Cidr0V4LengthIsAbsent)
       case 2 => Some(Cidr0V6PrefixIsAbsent)
       case 3 => Some(Cidr0V6LengthIsAbsent)
       case _ => None)
    case 20 =>
      (match offset
       case 0 => Some(MustUseHttps)
       case 1 => Some(AllowOriginNotStar)
       case _ => None)
    case 21 =>
      (match offset
       case 0 => Some(CnameWithoutARecords)
       case 1 => Some(CnameWithoutAAAARecords)
       case 2 => Some(NoARecords)
       case 3 => Some(NoAAAARecords)
       case 4 => Some(ExpectedExtensionNotFound)
       case 5 => Some(Ipv6SupportRequiredByIcann)
       case _ => None)
    case 22 =>
      (match offset
       case 0 => Some(DelegationSignedIsString)
       case 1 => Some(ZoneSignedIsString)
       case 2 => Some(MaxSigLifeIsString)
       case 3 => Some(KeyDatumAlgorithmIsString)
       case 4 => Some(KeyDatumAlgorithmIsOutOfRange)
       case 5 => Some(KeyDatumFlagsIsString)
       case 6 => Some(KeyDatumFlagsIsOutOfRange)
       case 7 => Some(KeyDatumProtocolIsString)
       case 8 => Some(KeyDatumProtocolIsOutOfRange)
       case 13 => Some(DsDatumAlgorithmIsString)
       case 14 => Some(DsDatumAlgorithmIsOutOfRange)
       case 15 => Some(DsDatumKeyTagIsString)
       case 16 => Some(DsDatumKeyTagIsOutOfRange)
       case 17 => Some(DsDatumDigestTypeIsString)
       case 18 => Some(DsDatumDigestTypeIsOutOfRange)
       case _ => None)
    case _ => None
  }


  /** Codes and checks are in one-to-one correspondence: every check's code
      leads back to it, so no two checks share a code; every code lies in the
      reserved range 100..2299. */
  lemma CodeRoundTrip(c: Check)
    ensures CheckFromCode(Code(c)) == Some(c)
    ensures 100 <= Code(c) < 2300
  {
    if InCodeGroup1(c) {
      CodeRoundTripGroup1(c);
    } else if InCodeGroup2(c) {
      CodeRoundTripGroup2(c);
    } else if InCodeGroup3(c) {
      CodeRoundTripGroup3(c);
    } else if InCodeGroup4(c) {
      CodeRoundTripGroup4(c);
    } else if InCodeGroup5(c) {
      CodeRoundTripGroup5(c);
    } else if InCodeGroup6(c) {
      CodeRoundTripGroup6(c);
    } else if InCodeGroup7(c) {
      CodeRoundTripGroup7(c);
    } else {
      CodeRoundTripGroup8(c);
    }
  }

  /** Checks RdapConformanceMissing to VariantEmptyDomain, in declaration order. */
  predicate InCodeGroup1(c: Check) {
    c.RdapConformanceMissing? || c.RdapConformanceInvalidParent? || c.UnknownExtention?
    || c.LinkMissingValueProperty? || c.LinkMissingRelProperty? || c.LinkRelatedHasNoType?
    || c.LinkRelatedIsNotRdap? || c.LinkSelfHasNoType? || c.LinkSelfIsNotRdap?
    || c.LinkObjectClassHasNoSelf? || c.LinkMissingHrefProperty? || c.VariantEmptyDomain?
  }

  /** The round trip for the checks of group 1, those of earlier groups
      already ruled out. */
  lemma CodeRoundTripGroup1(c: Check)
    requires InCodeGroup1(c)
    ensures CheckFromCode(Code(c)) == Some(c)
    ensures 100 <= Code(c) < 2300
  {
  }

  /** Checks EventDateIsAbsent to LdhNameInvalid, in declaration order. */
  predicate InCodeGroup2(c: Check) {
    c.EventDateIsAbsent? || c.EventDateIsNotRfc3339? || c.EventActionIsAbsent?
    || c.NoticeOrRemarkDescriptionIsAbsent? || c.NoticeOrRemarkDescriptionIsString?
    || c.HandleIsEmpty? || c.HandleIsNotString? || c.StatusIsEmpty? || c.RoleIsEmpty?
    || c.UnknownRole? || c.RoleIsString? || c.LdhNameInvalid?
  }

  /** The round trip for the checks of group 2, those of earlier groups
      already ruled out. */
  lemma CodeRoundTripGroup2(c: Check)
    requires !InCodeGroup1(c)
      && InCodeGroup2(c)
    ensures CheckFromCode(Code(c)) == Some(c)
    ensures 100 <= Code(c) < 2300
  {
  }

  /** Checks LdhNameDocumentation to IpAddressVersionMismatch, in declaration order. */
  predicate InCodeGroup3(c: Check) {
    c.LdhNameDocumentation? || c.LdhNameDoesNotMatchUnicode? || c.UnicodeNameInvalidDomain?
    || c.UnicodeNameInvalidUnicode? || c.NetworkOrAutnumNameIsEmpty?
    || c.NetworkOrAutnumNameIsNotString? || c.NetworkOrAutnumTypeIsEmpty?
    || c.NetworkOrAutnumTypeIsNotString? || c.IpAddressMissing? || c.IpAddressMalformed?
    || c.IpAddressEndBeforeStart? || c.IpAddressVersionMismatch?
  }

  /** The round trip for the checks of group 3, those of earlier groups
      already ruled out. */
  lemma CodeRoundTripGroup3(c: Check)
    requires !InCodeGroup1(c)
      && !InCodeGroup2(c)
      && InCodeGroup3(c)
    ensures CheckFromCode(Code(c)) == Some(c)
    ensures 100 <= Code(c) < 2300
  {
  }

  /** Checks IpAddressMalformedVersion to IpVersionIsNotString, in declaration order. */
  predicate InCodeGroup4(c: Check) {
    c.IpAddressMalformedVersion? || c.IpAddressListIsEmpty? || c.IpAddressThisNetwork?
    || c.IpAddressPrivateUse? || c.IpAddressSharedNat? || c.IpAddressLoopback?
    || c.IpAddressLinkLocal? || c.IpAddressUniqueLocal? || c.IpAddressDocumentationNet?
    || c.IpAddressReservedNet? || c.IpAddressArrayIsString? || c.IpVersionIsNotString?
  }

  /** The round trip for the checks of group 4, those of earlier groups
      already ruled out. */
  lemma CodeRoundTripGroup4(c: Check)
    requires !InCodeGroup1(c)
      && !InCodeGroup2(c)
      && !InCodeGroup3(c)
      && InCodeGroup4(c)
    ensures CheckFromCode(Code(c)) == Some(c)
    ensures 100 <= Code(c) < 2300
  {
  }

  /** Checks AutnumMissing to CorsAllowOriginRecommended, in declaration order. */
  predicate InCodeGroup5(c: Check) {
    c.AutnumMissing? || c.AutnumEndBeforeStart? || c.AutnumPrivateUse? || c.AutnumDocumentation?
    || c.AutnumReserved? || c.VcardArrayIsEmpty? || c.VcardHasNoFn? || c.VcardFnIsEmpty?
    || c.Port43IsEmpty? || c.PublicIdTypeIsAbsent? || c.PublicIdIdentifierIsAbsent?
    || c.CorsAllowOriginRecommended?
  }

  /** The round trip for the checks of group 5, those of earlier groups
      already ruled out. */
  lemma CodeRoundTripGroup5(c: Check)
    requires !InCodeGroup1(c)
      && !InCodeGroup2(c)
      && !InCodeGroup3(c)
      && !InCodeGroup4(c)
      && InCodeGroup5(c)
    ensures CheckFromCode(Code(c)) == Some(c)
    ensures 100 <= Code(c) < 2300
  {
  }

  /** Checks CorsAllowOriginStarRecommended to CnameWithoutAAAARecords, in declaration order. */
  predicate InCodeGroup6(c: Check) {
    c.CorsAllowOriginStarRecommended? || c.CorsAllowCredentialsNotRecommended?
    || c.ContentTypeIsAbsent? || c.ContentTypeIsNotRdap? || c.Cidr0V4PrefixIsAbsent?
    || c.Cidr0V4LengthIsAbsent? || c.Cidr0V6PrefixIsAbsent? || c.Cidr0V6LengthIsAbsent?
    || c.MustUseHttps? || c.AllowOriginNotStar? || c.CnameWithoutARecords?
    || c.CnameWithoutAAAARecords?
  }

  /** The round trip for the checks of group 6, those of earlier groups
      already ruled out. */
  lemma CodeRoundTripGroup6(c: Check)
    requires !InCodeGroup1(c)
      && !InCodeGroup2(c)
      && !InCodeGroup3(c)
      && !InCodeGroup4(c)
      && !InCodeGroup5(c)
      && InCodeGroup6(c)
    ensures CheckFromCode(Code(c)) == Some(c)
    ensures 100 <= Code(c) < 2300
  {
  }

  /** Checks NoARecords to KeyDatumProtocolIsString, in declaration order. */
  predicate InCodeGroup7(c: Check) {
    c.NoARecords? || c.NoAAAARecords? || c.ExpectedExtensionNotFound?
    || c.Ipv6SupportRequiredByIcann? || c.DelegationSignedIsString? || c.ZoneSignedIsString?
    || c.MaxSigLifeIsString? || c.KeyDatumAlgorithmIsString? || c.KeyDatumAlgorithmIsOutOfRange?
    || c.KeyDatumFlagsIsString? || c.KeyDatumFlagsIsOutOfRange? || c.KeyDatumProtocolIsString?
  }

  /** The round trip for the checks of group 7, those of earlier groups
      already ruled out. */
  lemma CodeRoundTripGroup7(c: Check)
    requires !InCodeGroup1(c)
      && !InCodeGroup2(c)
      && !InCodeGroup3(c)
      && !InCodeGroup4(c)
      && !InCodeGroup5(c)
      && !InCodeGroup6(c)
      && InCodeGroup7(c)
    ensures CheckFromCode(Code(c)) == Some(c)
    ensures 100 <= Code(c) < 2300
  {
  }

  /** The round trip for the checks of group 8, those of earlier groups
      already ruled out. */
  lemma CodeRoundTripGroup8(c: Check)
    requires !InCodeGroup1(c)
      && !InCodeGroup2(c)
      && !InCodeGroup3(c)
      && !InCodeGroup4(c)
      && !InCodeGroup5(c)
      && !InCodeGroup6(c)
      && !InCodeGroup7(c)
    ensures CheckFromCode(Code(c)) == Some(c)
    ensures 100 <= Code(c) < 2300
  {
  }





  /** A check item: a check and its class. */
  datatype CheckItem = CheckItem(checkClass: CheckClass, check: Check)

  /** The class assigned to every check, once and for all. */
  function ClassOf(c: Check): CheckClass {
    match c
    case RdapConformanceMissing | RdapConformanceInvalidParent => StdError
    case UnknownExtention => StdWarning

    case LinkMissingValueProperty | LinkMissingRelProperty => StdError
    case LinkRelatedHasNoType | LinkRelatedIsNotRdap | LinkSelfHasNoType | LinkSelfIsNotRdap => StdWarning
    case LinkObjectClassHasNoSelf => SpecificationNote
    case LinkMissingHrefProperty => StdError

    case VariantEmptyDomain => StdWarning

    case EventDateIsAbsent | EventDateIsNotRfc3339 | EventActionIsAbsent
       | NoticeOrRemarkDescriptionIsAbsent | NoticeOrRemarkDescriptionIsString => StdError

    case HandleIsEmpty => StdWarning
    case HandleIsNotString => StdError

    case StatusIsEmpty | RoleIsEmpty => StdError
    case UnknownRole => StdWarning
    case RoleIsString | LdhNameInvalid => StdError
    case LdhNameDocumentation => Informational
    case LdhNameDoesNotMatchUnicode => StdWarning

    case UnicodeNameInvalidDomain | UnicodeNameInvalidUnicode => StdError

    case NetworkOrAutnumNameIsEmpty => StdWarning
    case NetworkOrAutnumNameIsNotString => StdError
    case NetworkOrAutnumTypeIsEmpty => StdWarning
    case NetworkOrAutnumTypeIsNotString => StdError
    case IpAddressMissing => StdWarning
    case IpAddressMalformed => StdError
    case IpAddressEndBeforeStart | IpAddressVersionMismatch => StdWarning
    case IpAddressMalformedVersion | IpAddressListIsEmpty => StdError
    case IpAddressThisNetwork | IpAddressPrivateUse | IpAddressSharedNat | IpAddressLoopback
       | IpAddressLinkLocal | IpAddressUniqueLocal | IpAddressDocumentationNet
       | IpAddressReservedNet => Informational
    case IpAddressArrayIsString => StdError
    case IpVersionIsNotString => StdError

    case AutnumMissing | AutnumEndBeforeStart => StdWarning
    case AutnumPrivateUse | AutnumDocumentation | AutnumReserved => Informational

    case VcardArrayIsEmpty | VcardHasNoFn => StdError
    case VcardFnIsEmpty => SpecificationNote

    case Port43IsEmpty | PublicIdTypeIsAbsent | PublicIdIdentifierIsAbsent => StdError

    case CorsAllowOriginRecommended | CorsAllowOriginStarRecommended
       | CorsAllowCredentialsNotRecommended => StdWarning
    case ContentTypeIsAbsent | ContentTypeIsNotRdap => StdError

    case Cidr0V4PrefixIsAbsent | Cidr0V4LengthIsAbsent | Cidr0V6PrefixIsAbsent
       | Cidr0V6LengthIsAbsent => Cidr0Error

    case MustUseHttps | AllowOriginNotStar => IcannError

    case CnameWithoutARecords | CnameWithoutAAAARecords => StdError
    case NoARecords | NoAAAARecords => SpecificationNote
    case ExpectedExtensionNotFound => StdError
    case Ipv6SupportRequiredByIcann => IcannError

    case DelegationSignedIsString | ZoneSignedIsString | MaxSigLifeIsString
       | KeyDatumAlgorithmIsString | KeyDatumAlgorithmIsOutOfRange
       | KeyDatumFlagsIsString | KeyDatumFlagsIsOutOfRange
       | KeyDatumProtocolIsString | KeyDatumProtocolIsOutOfRange
       | DsDatumAlgorithmIsString | DsDatumAlgorithmIsOutOfRange
       | DsDatumKeyTagIsString | DsDatumKeyTagIsOutOfRange
       | DsDatumDigestTypeIsString | DsDatumDigestTypeIsOutOfRange => StdError
  }

  /** `Check::check_item`: the sole constructor of an item from a check. */
  function CheckItemOf(c: Check): (item: CheckItem)
    ensures item.check == c
  {
    CheckItem(ClassOf(c), c)
  }

  /** The special-use address and AS-number checks, and the documentation
      domain check, are exactly the informational ones. */
  lemma InformationalChecks(c: Check)
    ensures CheckItemOf(c).checkClass == Informational <==>
      c in {LdhNameDocumentation,
            IpAddressThisNetwork, IpAddressPrivateUse, IpAddressSharedNat, IpAddressLoopback,
            IpAddressLinkLocal, IpAddressUniqueLocal, IpAddressDocumentationNet, IpAddressReservedNet,
            AutnumPrivateUse, AutnumDocumentation, AutnumReserved}
    ensures CheckItemOf(IpAddressMalformed).checkClass == StdError
  {
  }

  /** The CIDR0 class is the CIDR0 band (1900-1999). */
  lemma Cidr0Checks(c: Check)
    ensures CheckItemOf(c).checkClass == Cidr0Error <==> 1900 <= Code(c) < 2000
  {
    if 1900 <= Code(c) < 2000 {
      CodeRoundTrip(c);
      assert CheckInBand(19, Code(c) % 100) == Some(c);
    }
  }

  /** The ICANN-profile errors are exactly the two profile checks and the
      IPv6 requirement. */
  lemma IcannChecks(c: Check)
    ensures CheckItemOf(c).checkClass == IcannError <==>
      c in {MustUseHttps, AllowOriginNotStar, Ipv6SupportRequiredByIcann}
  {
  }

  /** Every secure-DNS check (band 2200-2299) is a standard error. */
  lemma SecureDnsChecks(c: Check)
    requires 2200 <= Code(c) < 2300
    ensures CheckItemOf(c).checkClass == StdError
  {
  }

  /** The specification notes are the missing self link, the empty fn and the
      missing address records. */
  lemma SpecificationNoteChecks(c: Check)
    ensures CheckItemOf(c).checkClass == SpecificationNote <==>
      c in {LinkObjectClassHasNoSelf, VcardFnIsEmpty, NoARecords, NoAAAARecords}
  {
  }

  /** No two checks share a code. */
  lemma CodeInjective(a: Check, b: Check)
    ensures Code(a) == Code(b) ==> a == b
  {
    CodeRoundTrip(a);
    CodeRoundTrip(b);
  }

  // ---------------------------------------------------------------------
  // The checks tree
  // ---------------------------------------------------------------------

  /** A node of findings: its label, its own items, and one child per
      checked sub-structure. Each node owns its children. */
  datatype Checks = Checks(rdapStruct: RdapStructure, items: seq<CheckItem>, subChecks: seq<Checks>)

  /** `Checks::sub`: the first immediate child with the given label. */
  function Sub(checks: Checks, s: RdapStructure): (r: Option<Checks>)
    ensures r.None? <==> forall i :: 0 <= i < |checks.subChecks| ==> checks.subChecks[i].rdapStruct != s
    ensures r.Some? ==> exists i :: (0 <= i < |checks.subChecks| && checks.subChecks[i] == r.value
      && r.value.rdapStruct == s
      && forall k :: 0 <= k < i ==> checks.subChecks[k].rdapStruct != s)
  {
    FirstWithLabel(checks.subChecks, s)
  }

  function FirstWithLabel(nodes: seq<Checks>, s: RdapStructure): (r: Option<Checks>)
    ensures r.None? <==> forall i :: 0 <= i < |nodes| ==> nodes[i].rdapStruct != s
    ensures r.Some? ==> exists i :: (0 <= i < |nodes| && nodes[i] == r.value
      && r.value.rdapStruct == s
      && forall k :: 0 <= k < i ==> nodes[k].rdapStruct != s)
  {
    if nodes == [] then None
    else if nodes[0].rdapStruct == s then Some(nodes[0])
    else
      var r := FirstWithLabel(nodes[1..], s);
      assert forall i :: 1 <= i < |nodes| ==> nodes[i] == nodes[1..][i - 1];
      r
  }

  /** `is_checked_item`: the check is among the node's own items (children
      are not consulted). */
  function IsCheckedItem(check: Check, checks: Checks): (r: bool)
    ensures r <==> exists i :: 0 <= i < |checks.items| && checks.items[i].check == check
  {
    AnyItemIs(checks.items, check)
  }

  function AnyItemIs(items: seq<CheckItem>, check: Check): (r: bool)
    ensures r <==> exists i :: 0 <= i < |items| && items[i].check == check
  {
    if items == [] then false
    else
      assert forall i :: 1 <= i < |items| ==> items[i] == items[1..][i - 1];
      items[0].check == check || AnyItemIs(items[1..], check)
  }

  /** `is_checked`: some tree of the list has the check among its own items. */
  function IsChecked(check: Check, trees: seq<Checks>): (r: bool)
    ensures r <==> exists t :: 0 <= t < |trees| && exists i :: 0 <= i < |trees[t].items| && trees[t].items[i].check == check
  {
    if trees == [] then false
    else
      assert forall t :: 1 <= t < |trees| ==> trees[t] == trees[1..][t - 1];
      IsCheckedItem(check, trees[0]) || IsChecked(check, trees[1..])
  }

  /** Membership looks only at a node's own items: a check present only in a
      child is not "checked" for the parent. */
  lemma IsCheckedItemIgnoresChildren(check: Check, checks: Checks, kids: seq<Checks>)
    ensures IsCheckedItem(check, checks.(subChecks := kids)) == IsCheckedItem(check, checks)
  {
  }

  // ---------------------------------------------------------------------
  // Traversal
  // ---------------------------------------------------------------------

  /** One call of the traversal's visitor: the path of the node and the item. */
  datatype Visit = Visit(path: string, item: CheckItem)

  const ROOT_PATH: string := "[ROOT]"

  /** The path of a node: its parent's path (or the root sentinel) followed by
      `/` and the node's label. */
  function NodePath(parentTree: Option<string>, s: RdapStructure): string {
    parentTree.GetOr(ROOT_PATH) + "/" + StructName(s)
  }

  /** The visits made for a node's own items, in order. */
  function ItemVisits(items: seq<CheckItem>, classes: seq<CheckClass>, path: string): seq<Visit> {
    if items == [] then []
    else
      (if items[0].checkClass in classes then [Visit(path, items[0])] else [])
      + ItemVisits(items[1..], classes, path)
  }

  /** The visits of a whole subtree: the node's matching items first, then each
      child's visits in order, each child under the node's path. */
  function Visits(checks: Checks, classes: seq<CheckClass>, parentTree: Option<string>): seq<Visit>
    decreases checks, |checks.subChecks| + 1
  {
    var path := NodePath(parentTree, checks.rdapStruct);
    ItemVisits(checks.items, classes, path) + ChildVisits(checks, classes, path, |checks.subChecks|)
  }

  /** The visits of the first `n` children of `checks`. */
  function ChildVisits(checks: Checks, classes: seq<CheckClass>, path: string, n: nat): seq<Visit>
    requires n <= |checks.subChecks|
    decreases checks, n
  {
    if n == 0 then []
    else ChildVisits(checks, classes, path, n - 1) + Visits(checks.subChecks[n - 1], classes, Some(path))
  }

  /** Every item of a subtree, in traversal order: own items, then each
      child's items. */
  function AllItems(checks: Checks): seq<CheckItem>
    decreases checks, |checks.subChecks| + 1
  {
    checks.items + ChildItems(checks, |checks.subChecks|)
  }

  function ChildItems(checks: Checks, n: nat): seq<CheckItem>
    requires n <= |checks.subChecks|
    decreases checks, n
  {
    if n == 0 then [] else ChildItems(checks, n - 1) + AllItems(checks.subChecks[n - 1])
  }

  /** The items whose class is among `classes`, in order. */
  function WithClass(items: seq<CheckItem>, classes: seq<CheckClass>): (r: seq<CheckItem>)
    ensures forall k :: 0 <= k < |r| ==> r[k].checkClass in classes
    ensures r == [] <==> forall i :: 0 <= i < |items| ==> items[i].checkClass !in classes
  {
    if items == [] then []
    else
      assert forall i :: 1 <= i < |items| ==> items[i] == items[1..][i - 1];
      (if items[0].checkClass in classes then [items[0]] else []) + WithClass(items[1..], classes)
  }

  lemma {:induction false} WithClassAppend(a: seq<CheckItem>, b: seq<CheckItem>, classes: seq<CheckClass>)
    ensures WithClass(a + b, classes) == WithClass(a, classes) + WithClass(b, classes)
  {
    if a == [] {
      assert a + b == b;
    } else {
      assert (a + b)[0] == a[0];
      assert (a + b)[1..] == a[1..] + b;
      WithClassAppend(a[1..], b, classes);
    }
  }

  /** The items handed to the visitor, in order. */
  function VisitedItems(vs: seq<Visit>): seq<CheckItem> {
    if vs == [] then [] else [vs[0].item] + VisitedItems(vs[1..])
  }

  lemma {:induction false} VisitedItemsAppend(a: seq<Visit>, b: seq<Visit>)
    ensures VisitedItems(a + b) == VisitedItems(a) + VisitedItems(b)
  {
    if a == [] {
      assert a + b == b;
    } else {
      assert (a + b)[0] == a[0];
      assert (a + b)[1..] == a[1..] + b;
      VisitedItemsAppend(a[1..], b);
    }
  }

  lemma {:induction false} ItemVisitsAreFiltered(items: seq<CheckItem>, classes: seq<CheckClass>, path: string)
    ensures VisitedItems(ItemVisits(items, classes, path)) == WithClass(items, classes)
  {
    if items != [] {
      var head := if items[0].checkClass in classes then [Visit(path, items[0])] else [];
      VisitedItemsAppend(head, ItemVisits(items[1..], classes, path));
      ItemVisitsAreFiltered(items[1..], classes, path);
    }
  }

  /** The visitor is called exactly once for every item of the subtree whose
      class is requested, and in traversal order: own items first, then each
      child in order. */
  lemma {:induction false} VisitsAreMatchingItems(checks: Checks, classes: seq<CheckClass>, parentTree: Option<string>)
    ensures VisitedItems(Visits(checks, classes, parentTree)) == WithClass(AllItems(checks), classes)
    decreases checks, |checks.subChecks| + 1
  {
    var path := NodePath(parentTree, checks.rdapStruct);
    ChildVisitsAreMatchingItems(checks, classes, path, |checks.subChecks|);
    ItemVisitsAreFiltered(checks.items, classes, path);
    VisitedItemsAppend(ItemVisits(checks.items, classes, path), ChildVisits(checks, classes, path, |checks.subChecks|));
    WithClassAppend(checks.items, ChildItems(checks, |checks.subChecks|), classes);
  }

  lemma {:induction false} ChildVisitsAreMatchingItems(checks: Checks, classes: seq<CheckClass>, path: string, n: nat)
    requires n <= |checks.subChecks|
    ensures VisitedItems(ChildVisits(checks, classes, path, n)) == WithClass(ChildItems(checks, n), classes)
    decreases checks, n
  {
    if n > 0 {
      var m := n - 1;
      var child := checks.subChecks[m];
      ChildVisitsAreMatchingItems(checks, classes, path, m);
      VisitsAreMatchingItems(child, classes, Some(path));
      ChildStep(checks, classes, path, m, n);
      MatchingConcat(ChildVisits(checks, classes, path, m), Visits(child, classes, Some(path)),
                     ChildItems(checks, m), AllItems(child), classes);
    } else {
      assert ChildVisits(checks, classes, path, n) == [];
      assert ChildItems(checks, n) == [];
    }
  }

  /** One step of the child recursions: the first `m + 1` children are the
      first `m` followed by child `m`. */
  lemma ChildStep(checks: Checks, classes: seq<CheckClass>, path: string, m: nat, n: nat)
    requires n == m + 1 <= |checks.subChecks|
    ensures ChildVisits(checks, classes, path, n)
      == ChildVisits(checks, classes, path, m) + Visits(checks.subChecks[m], classes, Some(path))
    ensures ChildItems(checks, n) == ChildItems(checks, m) + AllItems(checks.subChecks[m])
  {
  }


  /** Visits that match two runs of items, one after the other, match the
      two runs joined. */
  lemma MatchingConcat(front: seq<Visit>, last: seq<Visit>, a: seq<CheckItem>, b: seq<CheckItem>,
                       classes: seq<CheckClass>)
    requires VisitedItems(front) == WithClass(a, classes)
    requires VisitedItems(last) == WithClass(b, classes)
    ensures VisitedItems(front + last) == WithClass(a + b, classes)
  {
    VisitedItemsAppend(front, last);
    WithClassAppend(a, b, classes);
  }

  /** Every path handed to the visitor begins with the node's own path: the
      parent path (or `[ROOT]`), `/`, and the node's label. */
  lemma {:induction false} VisitPathsExtendNodePath(checks: Checks, classes: seq<CheckClass>, parentTree: Option<string>)
    ensures forall k :: 0 <= k < |Visits(checks, classes, parentTree)| ==>
      Text.StartsWith(Visits(checks, classes, parentTree)[k].path, NodePath(parentTree, checks.rdapStruct))
    decreases checks, |checks.subChecks| + 1
  {
    var path := NodePath(parentTree, checks.rdapStruct);
    var own := ItemVisits(checks.items, classes, path);
    var children := ChildVisits(checks, classes, path, |checks.subChecks|);
    var all: seq<Visit> := own + children;
    assert Visits(checks, classes, parentTree) == all;
    ItemVisitPaths(checks.items, classes, path);
    ChildVisitPaths(checks, classes, path, |checks.subChecks|);
    forall k | 0 <= k < |all|
      ensures Text.StartsWith(all[k].path, path)
    {
      if k >= |own| {
        var p := children[k - |own|].path;
        assert Text.StartsWith(p, path + "/");
        assert p[..|path|] == (path + "/")[..|path|];
      }
    }
  }

  lemma {:induction false} ItemVisitPaths(items: seq<CheckItem>, classes: seq<CheckClass>, path: string)
    ensures forall k :: 0 <= k < |ItemVisits(items, classes, path)| ==> ItemVisits(items, classes, path)[k].path == path
  {
    if items != [] {
      ItemVisitPaths(items[1..], classes, path);
    }
  }

  lemma {:induction false} ChildVisitPaths(checks: Checks, classes: seq<CheckClass>, path: string, n: nat)
    requires n <= |checks.subChecks|
    ensures forall k :: 0 <= k < |ChildVisits(checks, classes, path, n)| ==>
      Text.StartsWith(ChildVisits(checks, classes, path, n)[k].path, path + "/")
    decreases checks, n
  {
    if n > 0 {
      var child := checks.subChecks[n - 1];
      ChildVisitPaths(checks, classes, path, n - 1);
      VisitPathsExtendNodePath(child, classes, Some(path));
      var cp := NodePath(Some(path), child.rdapStruct);
      assert cp == path + "/" + StructName(child.rdapStruct);
      assert Text.StartsWith(cp, path + "/") by {
        assert cp[..|path + "/"|] == path + "/";
      }
      forall k | 0 <= k < |Visits(child, classes, Some(path))|
        ensures Text.StartsWith(Visits(child, classes, Some(path))[k].path, path + "/")
      {
        var p := Visits(child, classes, Some(path))[k].path;
        assert Text.StartsWith(p, cp);
        assert p[..|path + "/"|] == cp[..|path + "/"|];
      }
    }
  }

  /** `traverse_checks`: walks the tree depth first, calling the visitor for
      each item whose class is in `classes`; `visits` is the sequence of those
      calls. Returns whether any item of the subtree matched. */
  method TraverseChecks(checks: Checks, classes: seq<CheckClass>, parentTree: Option<string>)
    returns (found: bool, visits: seq<Visit>)
    ensures visits == Visits(checks, classes, parentTree)
    ensures found <==> visits != []
    ensures found <==> WithClass(AllItems(checks), classes) != []
    decreases checks, 1
  {
    var structTree := NodePath(parentTree, checks.rdapStruct);
    var own := OwnItemVisits(checks.items, classes, structTree);
    var childFound, childVisits := ChildrenVisits(checks, classes, structTree);
    found := own != [] || childFound;
    visits := own + childVisits;
    FoundIffVisited(checks, classes, parentTree);
  }

  /** The second loop of `traverse_checks`: each child traversed in order under
      the node's path; reports whether any of them matched. */
  method ChildrenVisits(checks: Checks, classes: seq<CheckClass>, path: string)
    returns (found: bool, visits: seq<Visit>)
    ensures visits == ChildVisits(checks, classes, path, |checks.subChecks|)
    ensures found <==> visits != []
    decreases checks, 0
  {
    found := false;
    visits := [];
    var j := 0;
    while j < |checks.subChecks|
      invariant j <= |checks.subChecks|
      invariant visits == ChildVisits(checks, classes, path, j)
      invariant found <==> visits != []
    {
      var next := j + 1;
      var subFound, subVisits := TraverseChecks(checks.subChecks[j], classes, Some(path));
      ChildStep(checks, classes, path, j, next);
      visits := visits + subVisits;
      if subFound {
        found := true;
      }
      j := next;
    }
  }


  /** The first loop of `traverse_checks`: a visit for each of the node's own
      items whose class is requested, in order. */
  method OwnItemVisits(items: seq<CheckItem>, classes: seq<CheckClass>, path: string)
    returns (visits: seq<Visit>)
    ensures visits == ItemVisits(items, classes, path)
  {
    visits := [];
    for i := 0 to |items|
      invariant visits == ItemVisits(items[..i], classes, path)
    {
      var item := items[i];
      ItemVisitsSnoc(items[..i], item, classes, path);
      assert items[..i + 1] == items[..i] + [item];
      if item.checkClass in classes {
        visits := visits + [Visit(path, item)];
      }
    }
    assert items[..|items|] == items;
  }

  lemma {:induction false} ItemVisitsSnoc(items: seq<CheckItem>, item: CheckItem, classes: seq<CheckClass>, path: string)
    ensures ItemVisits(items + [item], classes, path)
      == ItemVisits(items, classes, path) + (if item.checkClass in classes then [Visit(path, item)] else [])
  {
    if items != [] {
      assert (items + [item])[1..] == items[1..] + [item];
      ItemVisitsSnoc(items[1..], item, classes, path);
    }
  }

  /** The traversal visits something exactly when some item of the subtree
      has a requested class. */
  lemma FoundIffVisited(checks: Checks, classes: seq<CheckClass>, parentTree: Option<string>)
    ensures Visits(checks, classes, parentTree) != [] <==> WithClass(AllItems(checks), classes) != []
  {
    VisitsAreMatchingItems(checks, classes, parentTree);
    var vs := Visits(checks, classes, parentTree);
    if vs != [] {
      assert |VisitedItems(vs)| > 0;
    }
  }

  /** The test tree of an entity with one informational item and an autnum
      child with another: the visitor sees `[ROOT]/entity` and then
      `[ROOT]/entity/autnum`. */
  lemma EntityAutnumExample()
    ensures
      var parent := CheckItem(Informational, RdapConformanceInvalidParent);
      var child := CheckItem(Informational, VariantEmptyDomain);
      var tree := Checks(Entity, [parent], [Checks(Autnum, [child], [])]);
      Visits(tree, [Informational], None)
        == [Visit("[ROOT]/entity", parent), Visit("[ROOT]/entity/autnum", child)]
  {
    var parent := CheckItem(Informational, RdapConformanceInvalidParent);
    var child := CheckItem(Informational, VariantEmptyDomain);
    var sub := Checks(Autnum, [child], []);
    var tree := Checks(Entity, [parent], [sub]);
    var top := NodePath(None, Entity);
    assert top == "[ROOT]/entity";
    assert NodePath(Some(top), Autnum) == "[ROOT]/entity/autnum";
    assert ItemVisits([child], [Informational], "[ROOT]/entity/autnum") == [Visit("[ROOT]/entity/autnum", child)];
    assert ChildVisits(sub, [Informational], "[ROOT]/entity/autnum", 0) == [];
    assert Visits(sub, [Informational], Some(top)) == [Visit("[ROOT]/entity/autnum", child)];
    assert ChildVisits(tree, [Informational], top, 1) == [Visit("[ROOT]/entity/autnum", child)];
    assert ItemVisits([parent], [Informational], top) == [Visit(top, parent)];
  }

  /** A filter that matches no item's class yields no visit. */
  lemma NoMatchingClassNoVisit(checks: Checks, classes: seq<CheckClass>, parentTree: Option<string>)
    requires forall i :: 0 <= i < |AllItems(checks)| ==> AllItems(checks)[i].checkClass !in classes
    ensures Visits(checks, classes, parentTree) == []
  {
    FoundIffVisited(checks, classes, parentTree);
  }

  // ---------------------------------------------------------------------
  // Check parameters
  // ---------------------------------------------------------------------

  /** The context threaded through a check pass. `R` stands for the response
      type and `T` for the type identifier of the parent object. */
  datatype CheckParams<R, T> = CheckParams(doSubchecks: bool, root: R, parentType: T, allowUnregExt: bool)

  /** `CheckParams::from_parent`: the same parameters with a new parent type. */
  function FromParent<R, T>(params: CheckParams<R, T>, parentType: T): (r: CheckParams<R, T>)
    ensures r.parentType == parentType
    ensures r.doSubchecks == params.doSubchecks && r.root == params.root
    ensures r.allowUnregExt == params.allowUnregExt
  {
    params.(parentType := parentType)
  }

  /** `CheckParams::for_rdap`: the parameters of a top-level check of a
      response whose own type is `rdapType`. */
  function ForRdap<R, T>(rdap: R, rdapType: T): (r: CheckParams<R, T>)
    ensures r.doSubchecks && !r.allowUnregExt
    ensures r.root == rdap && r.parentType == rdapType
  {
    CheckParams(true, rdap, rdapType, false)
  }

  /** Deriving twice is deriving once, and deriving with the current parent
      type changes nothing. */
  lemma FromParentLaws<R, T>(params: CheckParams<R, T>, a: T, b: T)
    ensures FromParent(FromParent(params, a), b) == FromParent(params, b)
    ensures FromParent(params, params.parentType) == params
  {
  }
}
