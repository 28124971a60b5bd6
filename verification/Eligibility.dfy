/** The hard eligibility rules shared by assign, reassign and suggest. */
module Eligibility {
  import opened Optional

  type OrgId = nat
  type UserId = nat

  datatype Membership = Membership(organization: OrgId, role: string, isAvailable: bool, concurrentJobCap: Option<int>)

  datatype Reason = WrongOrganization | WrongRole | Unavailable | AtCap | UnknownMembership

  const AGENT := "AGENT"

  function EffectiveCapFor(membership: Option<Membership>, defaultCap: int): int {
    if membership.Some? && membership.value.concurrentJobCap.Some?
    then membership.value.concurrentJobCap.value
    else defaultCap
  }

  /** The rule in one line: an available agent of this organization with room under the effective cap. */
  predicate Eligible(membership: Option<Membership>, organization: OrgId, activeJobs: nat, defaultCap: int) {
    && membership.Some?
    && membership.value.organization == organization
    && membership.value.role == AGENT
    && membership.value.isAvailable
    && activeJobs < EffectiveCapFor(membership, defaultCap)
  }

  /** The order in which the checks are made. */
  function Place(reason: Reason): nat {
    match reason
    case WrongOrganization => 0
    case WrongRole => 1
    case Unavailable => 2
    case AtCap => 3
    case UnknownMembership => 4
  }

  /**
   * Collects every reason that applies, in the order the checks are made. An
   * absent membership fails the first three checks, so it is never eligible.
   */
  method CheckAgentEligibility(membership: Option<Membership>, organization: OrgId, activeJobs: nat, defaultCap: int)
    returns (eligible: bool, reasons: seq<Reason>, effectiveCap: int)
    ensures eligible <==> Eligible(membership, organization, activeJobs, defaultCap)
    ensures eligible <==> reasons == []
    ensures WrongOrganization in reasons <==>
            (membership.None? || membership.value.organization != organization)
    ensures WrongRole in reasons <==> (membership.None? || membership.value.role != AGENT)
    ensures Unavailable in reasons <==> (membership.None? || !membership.value.isAvailable)
    ensures AtCap in reasons <==> activeJobs >= effectiveCap
    ensures UnknownMembership !in reasons
    ensures forall i, j :: 0 <= i < j < |reasons| ==> Place(reasons[i]) < Place(reasons[j])
    ensures effectiveCap == if membership.Some? && membership.value.concurrentJobCap.Some?
                            then membership.value.concurrentJobCap.value else defaultCap
  {
    reasons := [];
    if membership.None? || membership.value.organization != organization {
      reasons := reasons + [WrongOrganization];
    }
    if membership.None? || membership.value.role != AGENT {
      reasons := reasons + [WrongRole];
    }
    if membership.None? || !membership.value.isAvailable {
      reasons := reasons + [Unavailable];
    }
    effectiveCap := EffectiveCapFor(membership, defaultCap);
    if activeJobs >= effectiveCap {
      reasons := reasons + [AtCap];
    }
    eligible := reasons == [];
  }
}
