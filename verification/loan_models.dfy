/** The LoanBot entities. `double` and `DateTime` become `real` and an
    integer tick count; string fields are `seq<char>`. */
module LoanModels {

  /** A catalogue offer. */
  datatype Loan = Loan(id: int, loanType: string, bank: string, interest: real, processingFee: real)

  /** The applicant's profile posted to the eligibility check. */
  datatype UserProfile = UserProfile(age: int, income: real, cibilScore: real, location: string)

  /** One offer annotated with the decision text. */
  datatype EligibilityResult = EligibilityResult(loan: Loan, reason: string)

  /** The message body that travels through the broker. */
  datatype LoanApplicationEvent = LoanApplicationEvent(applicant: string, loanType: string, bank: string, timestamp: int)

  /** The row the consumer persists; `id` is assigned by the store. */
  datatype LoanApplication = LoanApplication(id: int, applicant: string, loanType: string, bank: string, timestamp: int)

  /** The three loans `HasData` configures for the catalogue. */
  function SeedLoans(): (loans: seq<Loan>)
    ensures |loans| == 3
    ensures forall i :: 0 <= i < |loans| ==> loans[i].id == i + 1
  {
    [ Loan(1, "Home Loan", "Axis Bank", 7.8, 2000.0),
      Loan(2, "Personal Loan", "HDFC", 10.5, 500.0),
      Loan(3, "Car Loan", "ICICI", 9.2, 1000.0) ]
  }

  /** The consumer's record carries the event's four business fields. */
  predicate Copies(a: LoanApplication, e: LoanApplicationEvent) {
    a.applicant == e.applicant && a.loanType == e.loanType && a.bank == e.bank && a.timestamp == e.timestamp
  }
}
