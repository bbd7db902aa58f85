/**
 * The pieces of the conformance-test runner that are plain computation: the
 * list of RDAP extension identifiers a test run expects, assembled from the
 * caller's list and the profile groups it names, and the port a test run
 * connects to.
 */
module TestExecution {
  import opened Wrappers
  import opened Text

  /** A profile that stands for a fixed set of expected extensions. */
  datatype ExtensionGroup = Gtld | Nro | NroAsn

  datatype TestExecutionError = UnregisteredExtension

  // Registered RDAP extension identifiers used by the groups.
  const ICANN_RDAP_RESPONSE_PROFILE_0 := "icann_rdap_response_profile_0"
  const ICANN_RDAP_RESPONSE_PROFILE_1 := "icann_rdap_response_profile_1"
  const ICANN_RDAP_TECHNICAL_IMPLEMENTATION_GUIDE_0 := "icann_rdap_technical_implementation_guide_0"
  const ICANN_RDAP_TECHNICAL_IMPLEMENTATION_GUIDE_1 := "icann_rdap_technical_implementation_guide_1"
  const NRO_RDAP_PROFILE_0 := "nro_rdap_profile_0"
  const CIDR0 := "cidr0"
  const NRO_RDAP_PROFILE_ASN_FLAT_0 := "nro_rdap_profile_asn_flat_0"
  const NRO_RDAP_PROFILE_ASN_HIERARCHICAL_0 := "nro_rdap_profile_asn_hierarchical_0"

  /** An entry that accepts either of two extensions: "a|b". */
  function Either(a: string, b: string): (r: string)
    ensures StartsWith(r, a + "|") && EndsWith(r, "|" + b)
    ensures |r| == |a| + 1 + |b|
  {
    assert (a + "|" + b)[..|a| + 1] == a + "|";
    assert (a + "|" + b)[|a|..] == "|" + b;
    a + "|" + b
  }

  /** The two entries a group contributes, in order. */
  function GroupIds(g: ExtensionGroup): (r: seq<string>)
    ensures |r| == 2
  {
    match g
    case Gtld => [Either(ICANN_RDAP_RESPONSE_PROFILE_0, ICANN_RDAP_RESPONSE_PROFILE_1),
                  Either(ICANN_RDAP_TECHNICAL_IMPLEMENTATION_GUIDE_0, ICANN_RDAP_TECHNICAL_IMPLEMENTATION_GUIDE_1)]
    case Nro => [NRO_RDAP_PROFILE_0, CIDR0]
    case NroAsn => [NRO_RDAP_PROFILE_0, Either(NRO_RDAP_PROFILE_ASN_FLAT_0, NRO_RDAP_PROFILE_ASN_HIERARCHICAL_0)]
  }

  /** The entries of the groups, group after group. */
  function GroupEntries(groups: seq<ExtensionGroup>): seq<string> {
    if groups == [] then []
    else GroupEntries(groups[..|groups| - 1]) + GroupIds(groups[|groups| - 1])
  }

  /** Some caller-supplied identifier is not registered. */
  predicate HasUnregistered(exts: seq<string>, isRegistered: string -> bool) {
    exists k :: 0 <= k < |exts| && !isRegistered(exts[k])
  }

  /** The expected extensions of a test run: the caller's identifiers, which
      must all be registered unless unregistered ones are allowed, followed by
      the entries of each group. `isRegistered` stands for parsing an
      identifier as a known extension. */
  method NormalizeExtensionIds(exts: seq<string>, groups: seq<ExtensionGroup>,
                               allowUnregistered: bool, isRegistered: string -> bool)
    returns (r: Result<seq<string>, TestExecutionError>)
    ensures r.Err? <==> !allowUnregistered && HasUnregistered(exts, isRegistered)
    ensures r.Ok? ==> r.value == exts + GroupEntries(groups)
  {
    var retval := exts;
    if !allowUnregistered {
      for i := 0 to |retval|
        invariant forall k :: 0 <= k < i ==> isRegistered(exts[k])
      {
        if !isRegistered(retval[i]) {
          return Err(UnregisteredExtension);
        }
      }
    }
    for g := 0 to |groups|
      invariant retval == exts + GroupEntries(groups[..g])
    {
      assert groups[..g + 1][..g] == groups[..g];
      ghost var before := retval;
      match groups[g]
      case Gtld =>
        retval := retval + [Either(ICANN_RDAP_RESPONSE_PROFILE_0, ICANN_RDAP_RESPONSE_PROFILE_1)];
        retval := retval + [Either(ICANN_RDAP_TECHNICAL_IMPLEMENTATION_GUIDE_0, ICANN_RDAP_TECHNICAL_IMPLEMENTATION_GUIDE_1)];
      case Nro =>
        retval := retval + [NRO_RDAP_PROFILE_0];
        retval := retval + [CIDR0];
      case NroAsn =>
        retval := retval + [NRO_RDAP_PROFILE_0];
        retval := retval + [Either(NRO_RDAP_PROFILE_ASN_FLAT_0, NRO_RDAP_PROFILE_ASN_HIERARCHICAL_0)];
      assert retval == before + GroupIds(groups[g]);
    }
    assert groups[..|groups|] == groups;
    return Ok(retval);
  }

  /** Every group contributes exactly two entries. */
  lemma {:induction false} GroupEntriesLength(groups: seq<ExtensionGroup>)
    ensures |GroupEntries(groups)| == 2 * |groups|
  {
    if groups != [] {
      GroupEntriesLength(groups[..|groups| - 1]);
    }
  }

  /** Group `g` contributes the entries at positions 2g and 2g + 1. */
  lemma {:induction false} GroupEntriesAt(groups: seq<ExtensionGroup>, g: nat)
    requires g < |groups|
    ensures |GroupEntries(groups)| == 2 * |groups|
    ensures GroupEntries(groups)[2 * g] == GroupIds(groups[g])[0]
    ensures GroupEntries(groups)[2 * g + 1] == GroupIds(groups[g])[1]
  {
    GroupEntriesLength(groups);
    var front := groups[..|groups| - 1];
    GroupEntriesLength(front);
    if g < |groups| - 1 {
      GroupEntriesAt(front, g);
    }
  }

  /** The caller's identifiers come first, unchanged and in order; the group
      entries follow, two per group; group entries are never checked against
      the registry. */
  lemma NormalizedLayout(exts: seq<string>, groups: seq<ExtensionGroup>, g: nat)
    requires g < |groups|
    ensures var ids := exts + GroupEntries(groups);
      |ids| == |exts| + 2 * |groups|
      && ids[..|exts|] == exts
      && ids[|exts| + 2 * g] == GroupIds(groups[g])[0]
      && ids[|exts| + 2 * g + 1] == GroupIds(groups[g])[1]
  {
    GroupEntriesAt(groups, g);
  }

  /** The gTLD group asks for either response profile and either technical
      implementation guide; the NRO group for the NRO profile and cidr0. */
  lemma GroupExamples()
    ensures Either(ICANN_RDAP_RESPONSE_PROFILE_0, ICANN_RDAP_RESPONSE_PROFILE_1) in GroupEntries([Gtld])
    ensures Either(ICANN_RDAP_TECHNICAL_IMPLEMENTATION_GUIDE_0, ICANN_RDAP_TECHNICAL_IMPLEMENTATION_GUIDE_1) in GroupEntries([Gtld])
    ensures GroupEntries([Nro, NroAsn]) ==
      [NRO_RDAP_PROFILE_0, CIDR0, NRO_RDAP_PROFILE_0,
       Either(NRO_RDAP_PROFILE_ASN_FLAT_0, NRO_RDAP_PROFILE_ASN_HIERARCHICAL_0)]
  {
    assert [Nro, NroAsn][..1] == [Nro];
    assert [Nro][..0] == [];
    assert [Gtld][..0] == [];
  }

  /** The port a test run connects to: the URL's own port, otherwise 443 for
      "https" and 80 for anything else. `urlPort` is the port the parsed URL
      reports. */
  function EffectivePort(urlPort: Option<nat>, scheme: string): (p: nat)
    ensures urlPort.Some? ==> p == urlPort.value
    ensures urlPort.None? ==> (p == 443 <==> scheme == "https") && (p == 80 <==> scheme != "https")
  {
    match urlPort
    case Some(port) => port
    case None => if scheme == "https" then 443 else 80
  }
}
