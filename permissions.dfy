/** Subscription quotas and feature gates. A tier is one of the three keys of
    the quota maps; a quota is a count or `Infinity`. */
module Permissions {

  datatype Tier = Free | Pro | ProPlus

  /** A quota: finitely many creations, or no limit at all (`Infinity`). */
  datatype Limit = Finite(max: nat) | Unbounded

  /** Position of a tier in the order free < pro < pro_plus. */
  function Rank(t: Tier): nat
  {
    match t
    case Free => 0
    case Pro => 1
    case ProPlus => 2
  }

  /** `currentCount < limit`, where every number is below `Infinity`. */
  predicate Below(count: int, limit: Limit)
  {
    match limit
    case Finite(m) => count < m
    case Unbounded => true
  }

  /** `maxResumeMap`: 1, 3 and `Infinity`. */
  function MaxResumes(t: Tier): Limit
  {
    match t
    case Free => Finite(1)
    case Pro => Finite(3)
    case ProPlus => Unbounded
  }

  /** `maxInterviewMap`: 1, 3 and `Infinity`. */
  function MaxInterviews(t: Tier): Limit
  {
    match t
    case Free => Finite(1)
    case Pro => Finite(3)
    case ProPlus => Unbounded
  }

  predicate CanCreateResume(t: Tier, currentResumeCount: int)
  {
    Below(currentResumeCount, MaxResumes(t))
  }

  predicate CanCreateInterview(t: Tier, currentInterviewCount: int)
  {
    Below(currentInterviewCount, MaxInterviews(t))
  }

  predicate CanUseAITools(t: Tier)
  {
    t != Free
  }

  predicate CanUseCustomizations(t: Tier)
  {
    t == ProPlus
  }

  /** The free tier allows a resume only below one (a count of 0 for
      non-negative counts); the pro tier exactly below three. */
  lemma ResumeQuotas(count: int)
    ensures CanCreateResume(Free, count) <==> count < 1
    ensures CanCreateResume(Pro, count) <==> count < 3
    ensures count >= 0 ==> (CanCreateResume(Free, count) <==> count == 0)
  {
  }

  /** pro_plus always allows creating, whatever the count. */
  lemma ProPlusUnlimited(count: int)
    ensures CanCreateResume(ProPlus, count)
    ensures CanCreateInterview(ProPlus, count)
  {
  }

  /** Interviews and resumes are under the same quotas for every tier and count. */
  lemma SameQuotas(t: Tier, count: int)
    ensures CanCreateInterview(t, count) <==> CanCreateResume(t, count)
  {
  }

  /** Allowed at a count means allowed at every smaller count and on every
      higher tier. */
  lemma QuotaMonotone(t: Tier, u: Tier, n: int, m: int)
    requires CanCreateResume(t, n)
    requires m <= n && Rank(t) <= Rank(u)
    ensures CanCreateResume(u, m)
    ensures CanCreateInterview(u, m)
  {
  }

  /** AI tools are closed only to the free tier. */
  lemma AIToolsGate(t: Tier)
    ensures !CanUseAITools(t) <==> t == Free
    ensures CanUseAITools(t) <==> Rank(t) >= 1
  {
  }

  /** Customizations are open only to pro_plus, so they imply AI tools. */
  lemma CustomizationsGate(t: Tier)
    ensures CanUseCustomizations(t) <==> t == ProPlus
    ensures CanUseCustomizations(t) ==> CanUseAITools(t)
  {
  }
}
