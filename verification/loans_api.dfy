/** `LoansController`: the eligibility check over the loan catalogue, the
    lookup by id, and `Apply`, which hands an application to the broker. */
module LoansApi {
  import opened Wrappers
  import opened LoanModels
  import Seqs
  import LoanBroker

  const MinCibilScore: real := 700.0
  const MinIncome: real := 30000.0

  const EligibleReason := "Eligible based on good CIBIL and income."
  const NotEligibleReason := "Not eligible: insufficient CIBIL or income."
  const AppliedStatus := "Loan application event published successfully."

  /** Both thresholds met, each inclusively. */
  predicate Qualifies(p: UserProfile) {
    p.cibilScore >= MinCibilScore && p.income >= MinIncome
  }

  /** The reason text attached to every offer for this profile. */
  function ReasonFor(p: UserProfile): (reason: string)
    ensures reason == EligibleReason <==> Qualifies(p)
    ensures reason == NotEligibleReason <==> !Qualifies(p)
  {
    assert EligibleReason[0] != NotEligibleReason[0];
    if Qualifies(p) then EligibleReason else NotEligibleReason
  }

  /** Reference definition: every offer annotated, in catalogue order. */
  function Evaluate(p: UserProfile, loans: seq<Loan>): seq<EligibilityResult> {
    seq(|loans|, i requires 0 <= i < |loans| => EligibilityResult(loans[i], ReasonFor(p)))
  }

  /** `CheckEligibility`: one result per loan, nothing filtered out. */
  method CheckEligibility(profile: UserProfile, loans: seq<Loan>) returns (results: seq<EligibilityResult>)
    ensures |results| == |loans|
    ensures forall i :: 0 <= i < |loans| ==> results[i].loan == loans[i]
    ensures forall i :: 0 <= i < |loans| ==>
      (results[i].reason == EligibleReason <==> profile.cibilScore >= 700.0 && profile.income >= 30000.0)
    ensures forall i :: 0 <= i < |loans| ==>
      (results[i].reason == NotEligibleReason <==> profile.cibilScore < 700.0 || profile.income < 30000.0)
    ensures results == Evaluate(profile, loans)
  {
    results := [];
    for k := 0 to |loans|
      invariant |results| == k
      invariant forall i :: 0 <= i < k ==> results[i] == EligibilityResult(loans[i], ReasonFor(profile))
    {
      if profile.cibilScore >= 700.0 && profile.income >= 30000.0 {
        results := results + [EligibilityResult(loans[k], EligibleReason)];
      } else {
        results := results + [EligibilityResult(loans[k], NotEligibleReason)];
      }
    }
  }

  /** The decision depends on the profile alone: all results share one reason. */
  lemma UniformReason(p: UserProfile, loans: seq<Loan>, i: nat, j: nat)
    requires i < |loans| && j < |loans|
    ensures Evaluate(p, loans)[i].reason == Evaluate(p, loans)[j].reason
    ensures Evaluate(p, loans)[i].loan == loans[i]
  {
  }

  /** Every result in the response carries the profile's reason. */
  lemma ResultsCarryProfileReason(p: UserProfile, loans: seq<Loan>)
    ensures forall r :: r in Evaluate(p, loans) ==> r.reason == ReasonFor(p) && r.loan in loans
  {
  }

  /** Failing either threshold, by any margin, means not eligible;
      meeting both exactly means eligible. */
  lemma ThresholdBoundaries(loans: seq<Loan>, age: int, location: string)
    ensures forall r :: r in Evaluate(UserProfile(age, 30000.0, 700.0, location), loans) ==> r.reason == EligibleReason
    ensures forall r :: r in Evaluate(UserProfile(age, 29999.0, 750.0, location), loans) ==> r.reason == NotEligibleReason
    ensures forall r :: r in Evaluate(UserProfile(age, 40000.0, 650.0, location), loans) ==> r.reason == NotEligibleReason
    ensures forall r :: r in Evaluate(UserProfile(age, 40000.0, 720.0, location), loans) ==> r.reason == EligibleReason
  {
    ResultsCarryProfileReason(UserProfile(age, 30000.0, 700.0, location), loans);
    ResultsCarryProfileReason(UserProfile(age, 29999.0, 750.0, location), loans);
    ResultsCarryProfileReason(UserProfile(age, 40000.0, 650.0, location), loans);
    ResultsCarryProfileReason(UserProfile(age, 40000.0, 720.0, location), loans);
  }

  /** Against the seeded catalogue every profile gets three results, for
      loans 1, 2 and 3 in that order. */
  lemma SeedCatalogueResults(p: UserProfile)
    ensures |Evaluate(p, SeedLoans())| == 3
    ensures forall i :: 0 <= i < 3 ==> Evaluate(p, SeedLoans())[i].loan.id == i + 1
  {
  }

  /** Response of `GetById`. */
  datatype LoanLookup = NotFound | Found(loan: Loan)

  /** `GetById`: the catalogue loan with that key, or NotFound. */
  function GetById(loans: seq<Loan>, id: int): (r: LoanLookup)
    ensures r.NotFound? <==> forall i :: 0 <= i < |loans| ==> loans[i].id != id
    ensures r.Found? ==> r.loan in loans && r.loan.id == id
  {
    match Seqs.FirstIndex(loans, (l: Loan) => l.id == id)
    case None => NotFound
    case Some(i) => Found(loans[i])
  }

  /** Response of `Apply`: the broker afterwards and the status text. */
  datatype ApplyResponse = ApplyResponse(broker: LoanBroker.Broker, status: string)

  /** `Apply`: the controller's publisher is constructed (declaring the queue)
      and the event is published once, unchanged; the status never varies. */
  function Apply(b: LoanBroker.Broker, e: LoanApplicationEvent): (r: ApplyResponse)
    ensures r.status == AppliedStatus
    ensures LoanBroker.Pending(r.broker) == LoanBroker.Pending(b) + [Some(e)]
    ensures r.broker.queues.Keys == b.queues.Keys + {LoanBroker.PublishRoutingKey}
    ensures forall q :: q in b.queues && q != LoanBroker.PublishRoutingKey ==> r.broker.queues[q] == b.queues[q]
  {
    var b1 := LoanBroker.NewPublisher(b);
    var b2 := LoanBroker.Publish(b1, e);
    assert b2.queues[LoanBroker.PublishRoutingKey] == b1.queues[LoanBroker.PublishRoutingKey] + [Some(e)];
    ApplyResponse(b2, AppliedStatus)
  }
}
