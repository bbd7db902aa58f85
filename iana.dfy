/**
 * The IANA RDAP bootstrap registries: the registry file names, the
 * domain, autonomous-system-number and object-tag lookups, and the choice
 * of a preferred URL among the ones a lookup returns.
 *
 * A registry's "services" array is a sequence of services; each service is a
 * sequence of string arrays: the first array lists what the service covers
 * (TLDs, AS ranges), the last one its base URLs, and the object-tag registry
 * puts the tag in the second array.
 */
module Bootstrap {
  import opened Wrappers
  import opened Text

  // ---------------------------------------------------------------------
  // Registries and their files
  // ---------------------------------------------------------------------

  datatype IanaRegistryType =
    | RdapBootstrapDns
    | RdapBootstrapAsn
    | RdapBootstrapIpv4
    | RdapBootstrapIpv6
    | RdapObjectTags

  /** Where IANA publishes every RDAP registry. */
  const IANA_RDAP_BASE := "https://data.iana.org/rdap"

  /** The document IANA publishes each registry as. */
  function RegistryFile(t: IanaRegistryType): string {
    match t
    case RdapBootstrapDns => "dns.json"
    case RdapBootstrapAsn => "asn.json"
    case RdapBootstrapIpv4 => "ipv4.json"
    case RdapBootstrapIpv6 => "ipv6.json"
    case RdapObjectTags => "object-tags.json"
  }

  /** The URL of a registry: the IANA base, a slash, the document. */
  function Url(t: IanaRegistryType): string {
    IANA_RDAP_BASE + "/" + RegistryFile(t)
  }

  /** The first piece that splitting `s` at `sep` from the right yields:
      everything after the last `sep`, or all of `s` when there is none. */
  function AfterLast(s: string, sep: char): (r: string)
    ensures sep !in r
    ensures |r| <= |s| && r == s[|s| - |r|..]
    ensures |r| < |s| ==> s[|s| - |r| - 1] == sep
  {
    if s == [] then []
    else if s[|s| - 1] == sep then []
    else AfterLast(s[..|s| - 1], sep) + [s[|s| - 1]]
  }

  /** The first piece that splitting `s` at `sep` yields: everything before
      the first `sep`, or all of `s` when there is none. */
  function BeforeFirst(s: string, sep: char): (r: string)
    ensures sep !in r
    ensures |r| <= |s| && r == s[..|r|]
    ensures |r| < |s| ==> s[|r|] == sep
  {
    if s == [] then []
    else if s[0] == sep then []
    else [s[0]] + BeforeFirst(s[1..], sep)
  }

  /** Whatever precedes it, a piece free of the separator comes back whole. */
  lemma {:induction false} AfterLastOfJoin(prefix: string, sep: char, piece: string)
    requires sep !in piece
    ensures AfterLast(prefix + [sep] + piece, sep) == piece
  {
    var s := prefix + [sep] + piece;
    if piece == [] {
      assert s[|s| - 1] == sep;
    } else {
      var shorter := piece[..|piece| - 1];
      assert s[..|s| - 1] == prefix + [sep] + shorter;
      assert sep !in shorter by {
        forall k | 0 <= k < |shorter| ensures shorter[k] != sep {
          assert shorter[k] == piece[k];
        }
      }
      AfterLastOfJoin(prefix, sep, shorter);
      assert s[|s| - 1] == piece[|piece| - 1];
      assert shorter + [piece[|piece| - 1]] == piece;
    }
  }

  /** The file name of a registry: the last path segment of its URL. */
  function FileName(t: IanaRegistryType): string {
    AfterLast(Url(t), '/')
  }

  /** The file name taken from a registry's URL is the document it names:
      "dns.json", "asn.json", "ipv4.json", "ipv6.json", "object-tags.json". */
  lemma FileNameIsRegistryFile(t: IanaRegistryType)
    ensures FileName(t) == RegistryFile(t)
  {
    var f := RegistryFile(t);
    assert '/' !in f by {
      match t
      case RdapObjectTags =>
        assert forall k :: 0 <= k < 16 ==> "object-tags.json"[k] != '/';
      case _ =>
    }
    AfterLastOfJoin(IANA_RDAP_BASE, '/', f);
  }

  // ---------------------------------------------------------------------
  // Services and errors
  // ---------------------------------------------------------------------

  /** One entry of a registry's "services" array. */
  type Service = seq<seq<string>>

  datatype BootstrapRegistryError =
    | EmptyService
    | EmptyUrlSet
    | InvalidBootstrapInput
    | NoBootstrapUrls
    | InvalidBootstrapService

  type Lookup = Result<seq<string>, BootstrapRegistryError>

  function Last<T>(s: seq<T>): T
    requires s != []
  {
    s[|s| - 1]
  }

  // ---------------------------------------------------------------------
  // Domain lookup: the longest matching TLD wins
  // ---------------------------------------------------------------------

  /** A TLD entry applies to a domain when the domain ends with it, or when it
      is empty, which stands for the root. */
  predicate TldMatches(ldh: string, tld: string) {
    EndsWith(ldh, tld) || tld == []
  }

  /** The `l`-th TLD of the `k`-th service exists and applies to `ldh`. */
  ghost predicate MatchAt(services: seq<Service>, ldh: string, k: int, l: int) {
    0 <= k < |services| && services[k] != [] && 0 <= l < |services[k][0]|
    && TldMatches(ldh, services[k][0][l])
  }

  /** Position (k, l) comes before position (i, j) in scanning order. */
  predicate Before(k: int, l: int, i: int, j: int) {
    k < i || (k == i && l < j)
  }

  /** No TLD scanned before position (i, j) applies. */
  ghost predicate NoMatchBefore(services: seq<Service>, ldh: string, i: int, j: int) {
    forall k, l :: Before(k, l, i, j) && MatchAt(services, ldh, k, l) ==> false
  }

  /** Among the TLDs scanned before position (i, j), the one at (bi, bj)
      applies, no applying one is longer, and every applying one scanned
      before it is strictly shorter. */
  ghost predicate FirstLongest(services: seq<Service>, ldh: string, bi: int, bj: int, i: int, j: int) {
    Before(bi, bj, i, j) && MatchAt(services, ldh, bi, bj)
    && forall k, l :: Before(k, l, i, j) && MatchAt(services, ldh, k, l) ==>
         |services[k][0][l]| <= |services[bi][0][bj]|
         && (Before(k, l, bi, bj) ==> |services[k][0][l]| < |services[bi][0][bj]|)
  }

  /**
   * Look a domain up in the domain registry. Any service without arrays
   * fails the lookup; otherwise the URLs come from the service owning the
   * longest applying TLD, the first one scanned when several are equally
   * long.
   */
  method GetDnsBootstrapUrls(services: seq<Service>, ldh: string) returns (r: Lookup)
    ensures r == Err(EmptyService) <==> exists k :: 0 <= k < |services| && services[k] == []
    ensures r == Err(NoBootstrapUrls) <==>
      (forall k :: 0 <= k < |services| ==> services[k] != [])
      && NoMatchBefore(services, ldh, |services|, 0)
    ensures r.Err? ==> r.error == EmptyService || r.error == NoBootstrapUrls
    ensures r.Ok? ==> exists bi, bj ::
      FirstLongest(services, ldh, bi, bj, |services|, 0) && r.value == Last(services[bi])
  {
    var longest: Option<(nat, seq<string>)> := None;
    ghost var bi, bj := 0, 0;
    for i := 0 to |services|
      invariant forall k :: 0 <= k < i ==> services[k] != []
      invariant longest.None? ==> NoMatchBefore(services, ldh, i, 0)
      invariant longest.Some? ==>
        FirstLongest(services, ldh, bi, bj, i, 0)
        && longest.value == (|services[bi][0][bj]|, Last(services[bi]))
    {
      if services[i] == [] {
        return Err(EmptyService);
      }
      var tlds := services[i][0];
      for j := 0 to |tlds|
        invariant longest.None? ==> NoMatchBefore(services, ldh, i, j)
        invariant longest.Some? ==>
          FirstLongest(services, ldh, bi, bj, i, j)
          && longest.value == (|services[bi][0][bj]|, Last(services[bi]))
      {
        var tld := tlds[j];
        if EndsWith(ldh, tld) || tld == [] {
          var urls := Last(services[i]);
          if longest.None? || longest.value.0 < |tld| {
            longest := Some((|tld|, urls));
            bi, bj := i, j;
          }
        }
      }
    }
    if longest.None? {
      return Err(NoBootstrapUrls);
    }
    return Ok(longest.value.1);
  }

  /** The position that decides a domain lookup is unique, so the lookup's
      result is determined by the registry and the domain. */
  lemma FirstLongestUnique(services: seq<Service>, ldh: string, bi: int, bj: int, ci: int, cj: int, i: int, j: int)
    requires FirstLongest(services, ldh, bi, bj, i, j)
    requires FirstLongest(services, ldh, ci, cj, i, j)
    ensures bi == ci && bj == cj
  {
  }

  /** The empty TLD stands for the root, and every domain ends with it: the
      explicit root test adds nothing to the suffix test. */
  lemma RootTldIsSuffix(ldh: string, tld: string)
    ensures TldMatches(ldh, tld) <==> EndsWith(ldh, tld)
  {
    if tld == [] {
      assert ldh[|ldh| - |tld|..] == [];
    }
  }

  /** Registry with "co.uk" before "uk": for "foo.co.uk" the longer "co.uk"
      decides, although both apply. */
  lemma LongestTldWins()
    ensures FirstLongest([[["co.uk"], ["https://registry.co.uk/"]], [["uk"], ["https://registry.uk/"]]],
                         "foo.co.uk", 0, 0, 2, 0)
  {
    var services: seq<Service> := [[["co.uk"], ["https://registry.co.uk/"]], [["uk"], ["https://registry.uk/"]]];
    var ldh := "foo.co.uk";
    assert ldh[4..] == "co.uk";
    assert MatchAt(services, ldh, 0, 0);
    forall k, l | Before(k, l, 2, 0) && MatchAt(services, ldh, k, l)
      ensures |services[k][0][l]| <= |services[0][0][0]|
      ensures Before(k, l, 0, 0) ==> |services[k][0][l]| < |services[0][0][0]|
    {
      assert k == 0 || k == 1;
    }
  }

  /** The matching is a plain suffix test on characters, not on labels: a
      "org" entry also applies to "foo.borg". */
  lemma SuffixIsNotLabelAware()
    ensures TldMatches("foo.borg", "org")
  {
    assert "foo.borg"[5..] == "org";
  }

  // ---------------------------------------------------------------------
  // Autonomous system number lookup: the first range containing it wins
  // ---------------------------------------------------------------------

  predicate IsAsChar(c: char) {
    c == 'a' || c == 'A' || c == 's' || c == 'S'
  }

  /** `s` without its leading run of 'a', 'A', 's' and 'S' characters. */
  function TrimAsPrefix(s: string): (r: string)
    ensures |r| <= |s| && r == s[|s| - |r|..]
    ensures forall k :: 0 <= k < |s| - |r| ==> IsAsChar(s[k])
    ensures r != [] ==> !IsAsChar(r[0])
  {
    if s != [] && IsAsChar(s[0]) then TrimAsPrefix(s[1..]) else s
  }

  /** The autonomous system number a query names, if it is a 32-bit number
      after its "AS" prefix. */
  function ParseAsn(asn: string): (r: Option<nat>)
    ensures r.Some? ==> r.value < U32_LIMIT
  {
    ParseUnsigned(TrimAsPrefix(asn), U32_LIMIT)
  }

  /** What one step of a lookup decides: nothing yet, or the lookup's result. */
  datatype Step = Miss | Done(result: Lookup)

  /** One range entry "start-end" (or a single number) against the number
      looked up: an unreadable start is blamed on the input, an unreadable
      end on the registry. */
  function RangeStep(range: string, autnum: nat, urls: seq<string>): (r: Step)
    ensures r.Done? && r.result.Ok? ==> r.result.value == urls
    ensures r.Done? && r.result.Err? ==> r.result.error == InvalidBootstrapInput || r.result.error == InvalidBootstrapService
  {
    match ParseUnsigned(BeforeFirst(range, '-'), U32_LIMIT)
    case None => Done(Err(InvalidBootstrapInput))
    case Some(start) =>
      match ParseUnsigned(AfterLast(range, '-'), U32_LIMIT)
      case None => Done(Err(InvalidBootstrapService))
      case Some(end) => if start <= autnum <= end then Done(Ok(urls)) else Miss
  }

  /** Every step before the `k`-th passes. */
  predicate MissBefore(steps: seq<Step>, k: int)
    requires k <= |steps|
  {
    forall m :: 0 <= m < k ==> steps[m] == Miss
  }

  /** The first decisive step of a scan, or Miss when every step passes. */
  function FirstDone(steps: seq<Step>): (r: Step)
    ensures r == Miss <==> forall k :: 0 <= k < |steps| ==> steps[k] == Miss
    ensures r != Miss ==> exists k :: (0 <= k < |steps| && r == steps[k]
      && forall m :: 0 <= m < k ==> steps[m] == Miss)
    ensures forall k :: 0 <= k < |steps| && steps[k] != Miss && MissBefore(steps, k) ==> r == steps[k]
  {
    if steps == [] then Miss
    else if steps[0] != Miss then steps[0]
    else
      var rest := FirstDone(steps[1..]);
      assert forall k :: 1 <= k < |steps| ==> steps[k] == steps[1..][k - 1];
      rest
  }

  /** The first decisive range of a service, if any. */
  function RangesStep(ranges: seq<string>, autnum: nat, urls: seq<string>): (r: Step)
    ensures r.Done? && r.result.Ok? ==> r.result.value == urls
    ensures r.Done? ==> r.result != Err(NoBootstrapUrls)
  {
    FirstDone(seq(|ranges|, l requires 0 <= l < |ranges| => RangeStep(ranges[l], autnum, urls)))
  }

  /** A service passes when every one of its ranges passes. */
  lemma RangesAllMiss(ranges: seq<string>, autnum: nat, urls: seq<string>)
    requires forall l :: 0 <= l < |ranges| ==> RangeStep(ranges[l], autnum, urls) == Miss
    ensures RangesStep(ranges, autnum, urls) == Miss
  {
    var steps := seq(|ranges|, l requires 0 <= l < |ranges| => RangeStep(ranges[l], autnum, urls));
    assert forall l :: 0 <= l < |ranges| ==> steps[l] == Miss;
  }

  /** The first range that does not pass decides for its service. */
  lemma RangesDecidedAt(ranges: seq<string>, autnum: nat, urls: seq<string>, j: int)
    requires 0 <= j < |ranges|
    requires forall l :: 0 <= l < j ==> RangeStep(ranges[l], autnum, urls) == Miss
    requires RangeStep(ranges[j], autnum, urls) != Miss
    ensures RangesStep(ranges, autnum, urls) == RangeStep(ranges[j], autnum, urls)
  {
    var steps := seq(|ranges|, l requires 0 <= l < |ranges| => RangeStep(ranges[l], autnum, urls));
    assert MissBefore(steps, j);
    assert steps[j] != Miss;
  }

  /** One service against the number looked up: a service without arrays
      fails the lookup, otherwise its first decisive range decides. */
  function AsnServiceStep(service: Service, autnum: nat): (r: Step)
    ensures r.Done? ==> r.result != Err(NoBootstrapUrls)
    ensures r.Done? && r.result.Ok? ==> service != [] && r.result.value == Last(service)
  {
    if service == [] then Done(Err(EmptyService))
    else RangesStep(service[0], autnum, Last(service))
  }

  /** The steps of scanning a registry's services for `autnum`, in order. */
  function AsnServiceSteps(services: seq<Service>, autnum: nat): (steps: seq<Step>)
    ensures |steps| == |services|
    ensures forall k :: 0 <= k < |services| ==> steps[k] == AsnServiceStep(services[k], autnum)
  {
    seq(|services|, k requires 0 <= k < |services| => AsnServiceStep(services[k], autnum))
  }

  /**
   * What looking an autonomous system number up yields: the query must be a
   * 32-bit number after an optional "AS" prefix; then the first decisive
   * service (an empty one, one with an unreadable range, or one with a range
   * containing the number) gives the result, and no URLs when none decides.
   */
  function AsnLookup(services: seq<Service>, asn: string): (r: Lookup)
    ensures ParseAsn(asn).None? ==> r == Err(InvalidBootstrapInput)
    ensures r.Ok? ==> exists k :: 0 <= k < |services| && services[k] != [] && r.value == Last(services[k])
    ensures r == Err(NoBootstrapUrls) <==>
      ParseAsn(asn).Some? && forall k :: 0 <= k < |services| ==> AsnServiceStep(services[k], ParseAsn(asn).value) == Miss
  {
    match ParseAsn(asn)
    case None => Err(InvalidBootstrapInput)
    case Some(autnum) =>
      var steps := AsnServiceSteps(services, autnum);
      match FirstDone(steps)
      case Miss => Err(NoBootstrapUrls)
      case Done(r) =>
        assert exists k :: 0 <= k < |steps| && steps[k] == Done(r);
        r
  }

  /** Look an autonomous system number up in the AS registry. */
  method GetAsnBootstrapUrls(services: seq<Service>, asn: string) returns (r: Lookup)
    ensures r == AsnLookup(services, asn)
  {
    var parsed := ParseUnsigned(TrimAsPrefix(asn), U32_LIMIT);
    if parsed.None? {
      return Err(InvalidBootstrapInput);
    }
    var autnum := parsed.value;
    for i := 0 to |services|
      invariant forall k :: 0 <= k < i ==> AsnServiceStep(services[k], autnum) == Miss
    {
      if services[i] == [] {
        r := Err(EmptyService);
        ServiceDecidedAt(services, asn, i, r);
        return;
      }
      var step := ScanRanges(services[i][0], autnum, Last(services[i]));
      if step.Done? {
        r := step.result;
        ServiceDecidedAt(services, asn, i, r);
        return;
      }
    }
    ServicesAllMiss(services, asn);
    return Err(NoBootstrapUrls);
  }

  /** The inner loop of the AS lookup: scan one service's ranges and stop at
      the first decisive one. */
  method ScanRanges(ranges: seq<string>, autnum: nat, urls: seq<string>) returns (step: Step)
    ensures step == RangesStep(ranges, autnum, urls)
  {
    for j := 0 to |ranges|
      invariant forall l :: 0 <= l < j ==> RangeStep(ranges[l], autnum, urls) == Miss
    {
      var range := ranges[j];
      var start := ParseUnsigned(BeforeFirst(range, '-'), U32_LIMIT);
      if start.None? {
        step := Done(Err(InvalidBootstrapInput));
        RangesDecidedAt(ranges, autnum, urls, j);
        return;
      }
      var end := ParseUnsigned(AfterLast(range, '-'), U32_LIMIT);
      if end.None? {
        step := Done(Err(InvalidBootstrapService));
        RangesDecidedAt(ranges, autnum, urls, j);
        return;
      }
      if start.value <= autnum && end.value >= autnum {
        step := Done(Ok(urls));
        RangesDecidedAt(ranges, autnum, urls, j);
        return;
      }
    }
    RangesAllMiss(ranges, autnum, urls);
    return Miss;
  }

  /** The first service that does not pass decides the scan. */
  lemma ServiceDecidedAt(services: seq<Service>, asn: string, i: int, r: Lookup)
    requires ParseAsn(asn).Some? && 0 <= i < |services|
    requires forall k :: 0 <= k < i ==> AsnServiceStep(services[k], ParseAsn(asn).value) == Miss
    requires AsnServiceStep(services[i], ParseAsn(asn).value) == Done(r)
    ensures AsnLookup(services, asn) == r
  {
    assert MissBefore(AsnServiceSteps(services, ParseAsn(asn).value), i);
  }

  /** A scan where every service passes finds nothing. */
  lemma ServicesAllMiss(services: seq<Service>, asn: string)
    requires ParseAsn(asn).Some?
    requires forall k :: 0 <= k < |services| ==> AsnServiceStep(services[k], ParseAsn(asn).value) == Miss
    ensures AsnLookup(services, asn) == Err(NoBootstrapUrls)
  {
  }

  /** A well-formed AS registry: every service has arrays and every range
      entry has readable bounds. */
  ghost predicate WellFormedAsnRegistry(services: seq<Service>) {
    forall k :: 0 <= k < |services| ==> (services[k] != [] &&
      forall l :: 0 <= l < |services[k][0]| ==> RangeBounds(services[k][0][l]).Some?)
  }

  /** The numeric bounds of a range entry "start-end" (or a single number),
      when both read as 32-bit numbers. */
  function RangeBounds(range: string): Option<(nat, nat)> {
    match ParseUnsigned(BeforeFirst(range, '-'), U32_LIMIT)
    case None => None
    case Some(start) =>
      match ParseUnsigned(AfterLast(range, '-'), U32_LIMIT)
      case None => None
      case Some(end) => Some((start, end))
  }

  /** A range entry with readable bounds that contain `autnum`. */
  predicate Contains(range: string, autnum: nat) {
    RangeBounds(range).Some? && RangeBounds(range).value.0 <= autnum <= RangeBounds(range).value.1
  }

  /** In a well-formed registry a service decides exactly when one of its
      ranges contains the number, and then it yields its URLs. */
  lemma WellFormedServiceStep(services: seq<Service>, k: int, autnum: nat)
    requires WellFormedAsnRegistry(services) && 0 <= k < |services|
    ensures AsnServiceStep(services[k], autnum) != Miss <==>
      exists l :: 0 <= l < |services[k][0]| && Contains(services[k][0][l], autnum)
    ensures AsnServiceStep(services[k], autnum) != Miss ==>
      AsnServiceStep(services[k], autnum) == Done(Ok(Last(services[k])))
  {
    var ranges := services[k][0];
    var urls := Last(services[k]);
    var steps := seq(|ranges|, l requires 0 <= l < |ranges| => RangeStep(ranges[l], autnum, urls));
    forall l | 0 <= l < |ranges|
      ensures steps[l] != Miss <==> Contains(ranges[l], autnum)
      ensures steps[l] != Miss ==> steps[l] == Done(Ok(urls))
    {
      WellFormedRangeStep(ranges[l], autnum, urls);
    }
    assert AsnServiceStep(services[k], autnum) == FirstDone(steps);
  }

  /** A range entry with readable bounds decides exactly when it contains
      the number, and then it yields the URLs. */
  lemma WellFormedRangeStep(range: string, autnum: nat, urls: seq<string>)
    requires RangeBounds(range).Some?
    ensures RangeStep(range, autnum, urls) != Miss <==> Contains(range, autnum)
    ensures RangeStep(range, autnum, urls) != Miss ==> RangeStep(range, autnum, urls) == Done(Ok(urls))
  {
  }

  /** A range entry fails the lookup exactly when its bounds do not read: an
      unreadable start is blamed on the input, a readable start with an
      unreadable end on the registry. */
  lemma RangeStepErrors(range: string, autnum: nat, urls: seq<string>)
    ensures RangeBounds(range).None? <==>
      RangeStep(range, autnum, urls).Done? && RangeStep(range, autnum, urls).result.Err?
    ensures ParseUnsigned(BeforeFirst(range, '-'), U32_LIMIT).None? ==>
      RangeStep(range, autnum, urls) == Done(Err(InvalidBootstrapInput))
    ensures (ParseUnsigned(BeforeFirst(range, '-'), U32_LIMIT).Some?
      && ParseUnsigned(AfterLast(range, '-'), U32_LIMIT).None?) ==>
      RangeStep(range, autnum, urls) == Done(Err(InvalidBootstrapService))
  {
  }

  /** "x-10" has no readable start and "1-x" no readable end. */
  lemma RangeErrorExamples(autnum: nat, urls: seq<string>)
    ensures RangeStep("x-10", autnum, urls) == Done(Err(InvalidBootstrapInput))
    ensures RangeStep("1-x", autnum, urls) == Done(Err(InvalidBootstrapService))
  {
    assert BeforeFirst("x-10", '-') == "x";
    ParseRejects("x", U32_LIMIT);
    assert BeforeFirst("1-x", '-') == "1";
    assert ParseUnsigned("1", U32_LIMIT) == Some(1);
    assert AfterLast("1-x", '-') == "x";
    ParseRejects("x", U32_LIMIT);
  }

  /** In a well-formed registry, a number that parses is served by the
      first service with a range containing it. */
  lemma WellFormedAsnLookup(services: seq<Service>, asn: string, k: int)
    requires WellFormedAsnRegistry(services) && ParseAsn(asn).Some?
    requires 0 <= k < |services|
    requires exists l :: 0 <= l < |services[k][0]| && Contains(services[k][0][l], ParseAsn(asn).value)
    requires forall m, l :: 0 <= m < k && 0 <= l < |services[m][0]| ==> !Contains(services[m][0][l], ParseAsn(asn).value)
    ensures AsnLookup(services, asn) == Ok(Last(services[k]))
  {
    var autnum := ParseAsn(asn).value;
    WellFormedServiceStep(services, k, autnum);
    forall m | 0 <= m < k
      ensures AsnServiceStep(services[m], autnum) == Miss
    {
      WellFormedServiceStep(services, m, autnum);
    }
    ServiceDecidedAt(services, asn, k, Ok(Last(services[k])));
  }

  /** In a well-formed registry, a number that parses but that no range
      contains has no URLs. */
  lemma WellFormedAsnNotCovered(services: seq<Service>, asn: string)
    requires WellFormedAsnRegistry(services) && ParseAsn(asn).Some?
    requires forall m, l :: 0 <= m < |services| && 0 <= l < |services[m][0]| ==> !Contains(services[m][0][l], ParseAsn(asn).value)
    ensures AsnLookup(services, asn) == Err(NoBootstrapUrls)
  {
    var autnum := ParseAsn(asn).value;
    forall m | 0 <= m < |services|
      ensures AsnServiceStep(services[m], autnum) == Miss
    {
      WellFormedServiceStep(services, m, autnum);
    }
  }

  /** Any run of 'a', 'A', 's' and 'S' in front of the decimal form of a
      32-bit number is ignored: "AS64496", "as64496" and "64496" name the
      same number. */
  lemma {:induction false} AsnPrefixRoundTrip(prefix: string, n: nat)
    requires forall k :: 0 <= k < |prefix| ==> IsAsChar(prefix[k])
    requires n < U32_LIMIT
    ensures ParseAsn(prefix + NatToDecimal(n)) == Some(n)
  {
    TrimAsPrefixSkips(prefix, NatToDecimal(n));
    ParseDecimalRoundTrip(n, U32_LIMIT);
  }

  lemma {:induction false} TrimAsPrefixSkips(prefix: string, digits: string)
    requires forall k :: 0 <= k < |prefix| ==> IsAsChar(prefix[k])
    requires digits != [] && IsDigit(digits[0])
    ensures TrimAsPrefix(prefix + digits) == digits
  {
    var s := prefix + digits;
    if prefix != [] {
      var rest := prefix[1..];
      assert s[0] == prefix[0] && IsAsChar(s[0]);
      assert s[1..] == rest + digits;
      assert forall k :: 0 <= k < |rest| ==> rest[k] == prefix[k + 1];
      TrimAsPrefixSkips(rest, digits);
      assert TrimAsPrefix(s) == TrimAsPrefix(s[1..]);
    } else {
      assert s == digits;
      assert !IsAsChar(s[0]);
    }
  }

  /** A query made only of prefix letters names no number. */
  lemma PrefixOnlyQuery(asn: string)
    requires forall k :: 0 <= k < |asn| ==> IsAsChar(asn[k])
    ensures ParseAsn(asn) == None
  {
    ParseRejects(TrimAsPrefix(asn), U32_LIMIT);
  }

  // ---------------------------------------------------------------------
  // Object tag lookup: the first service whose tag matches wins
  // ---------------------------------------------------------------------

  /** One service of the object-tag registry against a tag: the tag sits
      first in the service's second array and is compared without regard to
      ASCII case. */
  function TagStep(service: Service, tag: string): (r: Step)
    ensures r.Done? ==> (r.result in {Err(InvalidBootstrapService), Err(EmptyService)}
      || (service != [] && r.result == Ok(Last(service))))
    ensures r == Miss <==> |service| >= 2 && service[1] != [] && !EqIgnoreAsciiCase(service[1][0], tag)
  {
    if |service| < 2 then Done(Err(InvalidBootstrapService))
    else if service[1] == [] then Done(Err(EmptyService))
    else if EqIgnoreAsciiCase(service[1][0], tag) then Done(Ok(Last(service)))
    else Miss
  }

  /** The steps of scanning a registry's services for `tag`, in order. */
  function TagSteps(services: seq<Service>, tag: string): (steps: seq<Step>)
    ensures |steps| == |services|
    ensures forall k :: 0 <= k < |services| ==> steps[k] == TagStep(services[k], tag)
  {
    seq(|services|, k requires 0 <= k < |services| => TagStep(services[k], tag))
  }

  /**
   * What looking an object tag up yields: the first decisive service (one
   * without a tag array, one with an empty tag array, or one whose tag
   * matches) gives the result, and no URLs when none decides.
   */
  function TagLookup(services: seq<Service>, tag: string): (r: Lookup)
    ensures r == Err(NoBootstrapUrls) <==> forall k :: 0 <= k < |services| ==> TagStep(services[k], tag) == Miss
    ensures r != Err(NoBootstrapUrls) ==> exists k :: (0 <= k < |services| && TagStep(services[k], tag) == Done(r)
      && forall m :: 0 <= m < k ==> TagStep(services[m], tag) == Miss)
  {
    var steps := TagSteps(services, tag);
    match FirstDone(steps)
    case Miss => Err(NoBootstrapUrls)
    case Done(r) =>
      assert exists k :: 0 <= k < |steps| && steps[k] == Done(r) && MissBefore(steps, k);
      r
  }

  /** Look an object tag up: the first decisive service gives the result. */
  method GetTagBootstrapUrls(services: seq<Service>, tag: string) returns (r: Lookup)
    ensures r == TagLookup(services, tag)
  {
    for i := 0 to |services|
      invariant forall k :: 0 <= k < i ==> TagStep(services[k], tag) == Miss
    {
      var service := services[i];
      if |service| < 2 {
        r := Err(InvalidBootstrapService);
        TagDecidedAt(services, tag, i, r);
        return;
      }
      if service[1] == [] {
        r := Err(EmptyService);
        TagDecidedAt(services, tag, i, r);
        return;
      }
      var objectTag := service[1][0];
      if EqIgnoreAsciiCase(objectTag, tag) {
        r := Ok(Last(service));
        TagDecidedAt(services, tag, i, r);
        return;
      }
    }
    return Err(NoBootstrapUrls);
  }

  /** The first service that does not pass decides the tag lookup. */
  lemma TagDecidedAt(services: seq<Service>, tag: string, i: int, r: Lookup)
    requires 0 <= i < |services|
    requires forall k :: 0 <= k < i ==> TagStep(services[k], tag) == Miss
    requires TagStep(services[i], tag) == Done(r)
    ensures TagLookup(services, tag) == r
  {
    assert MissBefore(TagSteps(services, tag), i);
  }

  /** A well-formed object-tag registry: every service has a non-empty tag
      array before its URLs. */
  predicate WellFormedTagRegistry(services: seq<Service>) {
    forall k :: 0 <= k < |services| ==> |services[k]| >= 2 && services[k][1] != []
  }

  /** The tag a service of a well-formed registry declares. */
  function ObjectTag(services: seq<Service>, k: int): string
    requires WellFormedTagRegistry(services) && 0 <= k < |services|
  {
    services[k][1][0]
  }

  /** In a well-formed registry, a tag is served by the first service whose
      tag equals it up to ASCII case. */
  lemma WellFormedTagLookup(services: seq<Service>, tag: string, k: int)
    requires WellFormedTagRegistry(services) && 0 <= k < |services|
    requires EqIgnoreAsciiCase(ObjectTag(services, k), tag)
    requires forall m :: 0 <= m < k ==> !EqIgnoreAsciiCase(ObjectTag(services, m), tag)
    ensures TagLookup(services, tag) == Ok(Last(services[k]))
  {
    forall m | 0 <= m < k
      ensures TagStep(services[m], tag) == Miss
    {
      assert !EqIgnoreAsciiCase(ObjectTag(services, m), tag);
    }
    TagDecidedAt(services, tag, k, Ok(Last(services[k])));
  }

  /** In a well-formed registry, a tag no service declares has no URLs. */
  lemma WellFormedTagNotFound(services: seq<Service>, tag: string)
    requires WellFormedTagRegistry(services)
    requires forall m :: 0 <= m < |services| ==> !EqIgnoreAsciiCase(ObjectTag(services, m), tag)
    ensures TagLookup(services, tag) == Err(NoBootstrapUrls)
  {
    forall m | 0 <= m < |services|
      ensures TagStep(services[m], tag) == Miss
    {
      assert !EqIgnoreAsciiCase(ObjectTag(services, m), tag);
    }
  }

  /** Reaching a service without a tag array fails the lookup as an invalid
      service, and one with an empty tag array as an empty service. */
  lemma MalformedTagService(services: seq<Service>, tag: string, k: int)
    requires 0 <= k < |services|
    requires forall m :: 0 <= m < k ==> TagStep(services[m], tag) == Miss
    requires |services[k]| < 2 || services[k][1] == []
    ensures |services[k]| < 2 ==> TagLookup(services, tag) == Err(InvalidBootstrapService)
    ensures |services[k]| >= 2 ==> TagLookup(services, tag) == Err(EmptyService)
  {
    TagDecidedAt(services, tag, k, if |services[k]| < 2 then Err(InvalidBootstrapService) else Err(EmptyService));
  }

  /** Tags compare without regard to ASCII case, in both directions. */
  lemma TagCaseInsensitive(service: Service, tag: string)
    ensures TagStep(service, tag) == TagStep(service, LowerAscii(tag))
    ensures TagStep(service, tag) == TagStep(service, UpperAscii(tag))
  {
    if |service| >= 2 && service[1] != [] {
      var t := service[1][0];
      EqIgnoreAsciiCaseIsLowerEquality(t, tag);
      EqIgnoreAsciiCaseIsLowerEquality(t, LowerAscii(tag));
      EqIgnoreAsciiCaseIsLowerEquality(t, UpperAscii(tag));
      assert LowerAscii(LowerAscii(tag)) == LowerAscii(tag);
      assert LowerAscii(UpperAscii(tag)) == LowerAscii(tag);
    }
  }

  // ---------------------------------------------------------------------
  // Preferred URL
  // ---------------------------------------------------------------------

  predicate IsHttps(url: string) {
    StartsWith(url, "https://")
  }

  /** The first HTTPS URL of a list, if any. */
  function FirstHttps(urls: seq<string>): (r: Option<string>)
    ensures r.None? <==> forall k :: 0 <= k < |urls| ==> !IsHttps(urls[k])
    ensures r.Some? ==> exists k :: (0 <= k < |urls| && urls[k] == r.value && IsHttps(r.value)
      && forall m :: 0 <= m < k ==> !IsHttps(urls[m]))
  {
    if urls == [] then None
    else if IsHttps(urls[0]) then Some(urls[0])
    else
      var rest := FirstHttps(urls[1..]);
      assert forall k :: 1 <= k < |urls| ==> urls[k] == urls[1..][k - 1];
      rest
  }

  /** Pick the URL to query among a service's URLs: the first HTTPS one,
      else the first one; an empty list has none. */
  function GetPreferredUrl(urls: seq<string>): (r: Result<string, BootstrapRegistryError>)
    ensures urls == [] <==> r == Err(EmptyUrlSet)
    ensures r.Ok? ==> r.value in urls
    ensures r.Ok? ==>
      if exists k :: 0 <= k < |urls| && IsHttps(urls[k]) then
        exists k :: 0 <= k < |urls| && urls[k] == r.value && IsHttps(r.value)
          && forall m :: 0 <= m < k ==> !IsHttps(urls[m])
      else r.value == urls[0]
  {
    if urls == [] then Err(EmptyUrlSet)
    else Ok(FirstHttps(urls).GetOr(urls[0]))
  }

  /** HTTPS is preferred over an HTTP URL listed before it. */
  lemma PreferHttpsExample()
    ensures GetPreferredUrl(["http://foo.example", "https://foo.example"]) == Ok("https://foo.example")
    ensures GetPreferredUrl(["http://foo.example"]) == Ok("http://foo.example")
  {
    assert !IsHttps("http://foo.example") by {
      assert "http://foo.example"[4] != "https://"[4];
    }
    assert IsHttps("https://foo.example") by {
      assert "https://foo.example"[..8] == "https://";
    }
  }
}
