/** AsyncApp's `TaxManager`: six flat-rate taxes. C# `decimal` arithmetic
    is exact at these magnitudes, so amounts are `real`. Each contract
    gives the rate as an exact ratio and the consequences callers rely on:
    no tax on zero, and for a non-negative amount a tax between zero and
    the amount. Nothing is clamped, so a negative amount gives a negative
    tax. */
module TaxManager {

  function CalculateIncomeTax(income: real): (tax: real)
    ensures 5.0 * tax == income
    ensures 0.0 <= income ==> 0.0 <= tax <= income
    ensures income < 0.0 ==> tax < 0.0
  {
    income * 0.2
  }

  function CalculateSalesTax(amount: real): (tax: real)
    ensures 100.0 * tax == 7.0 * amount
    ensures 0.0 <= amount ==> 0.0 <= tax <= amount
    ensures amount < 0.0 ==> tax < 0.0
  {
    amount * 0.07
  }

  function CalculatePropertyTax(propertyValue: real): (tax: real)
    ensures 1000.0 * tax == 15.0 * propertyValue
    ensures 0.0 <= propertyValue ==> 0.0 <= tax <= propertyValue
    ensures propertyValue < 0.0 ==> tax < 0.0
  {
    propertyValue * 0.015
  }

  function CalculateCapitalGainsTax(capitalGains: real): (tax: real)
    ensures 20.0 * tax == 3.0 * capitalGains
    ensures 0.0 <= capitalGains ==> 0.0 <= tax <= capitalGains
    ensures capitalGains < 0.0 ==> tax < 0.0
  {
    capitalGains * 0.15
  }

  function CalculateCorporateTax(corporateIncome: real): (tax: real)
    ensures 4.0 * tax == corporateIncome
    ensures 0.0 <= corporateIncome ==> 0.0 <= tax <= corporateIncome
    ensures corporateIncome < 0.0 ==> tax < 0.0
  {
    corporateIncome * 0.25
  }

  function CalculateWealthTax(netWorth: real): (tax: real)
    ensures 100.0 * tax == netWorth
    ensures 0.0 <= netWorth ==> 0.0 <= tax <= netWorth
    ensures netWorth < 0.0 ==> tax < 0.0
  {
    netWorth * 0.01
  }

  /** Every tax is linear in its amount, so splitting an amount never changes the total due. */
  lemma TaxesAreLinear(a: real, b: real)
    ensures CalculateIncomeTax(a + b) == CalculateIncomeTax(a) + CalculateIncomeTax(b)
    ensures CalculateSalesTax(a + b) == CalculateSalesTax(a) + CalculateSalesTax(b)
    ensures CalculatePropertyTax(a + b) == CalculatePropertyTax(a) + CalculatePropertyTax(b)
    ensures CalculateCapitalGainsTax(a + b) == CalculateCapitalGainsTax(a) + CalculateCapitalGainsTax(b)
    ensures CalculateCorporateTax(a + b) == CalculateCorporateTax(a) + CalculateCorporateTax(b)
    ensures CalculateWealthTax(a + b) == CalculateWealthTax(a) + CalculateWealthTax(b)
  {
  }
}

/** AsyncApp2's `TaxManager`, written independently with its own rate
    literals; each function agrees with AsyncApp's at every amount. */
module TaxManager2 {
  import TaxManager

  function CalculateIncomeTax(income: real): (tax: real)
    ensures tax == TaxManager.CalculateIncomeTax(income)
  {
    income * 0.2
  }

  function CalculateSalesTax(amount: real): (tax: real)
    ensures tax == TaxManager.CalculateSalesTax(amount)
  {
    amount * 0.07
  }

  function CalculatePropertyTax(propertyValue: real): (tax: real)
    ensures tax == TaxManager.CalculatePropertyTax(propertyValue)
  {
    propertyValue * 0.015
  }

  function CalculateCapitalGainsTax(capitalGains: real): (tax: real)
    ensures tax == TaxManager.CalculateCapitalGainsTax(capitalGains)
  {
    capitalGains * 0.15
  }

  function CalculateCorporateTax(corporateIncome: real): (tax: real)
    ensures tax == TaxManager.CalculateCorporateTax(corporateIncome)
  {
    corporateIncome * 0.25
  }

  function CalculateWealthTax(netWorth: real): (tax: real)
    ensures tax == TaxManager.CalculateWealthTax(netWorth)
  {
    netWorth * 0.01
  }
}

/** AsynAwaitDemoApp's `TaxDeductionManager`. The asynchronous members are
    modelled by the value their task completes with; the delays are not
    modelled. */
module TaxDeduction {
  import TaxManager

  /** The demo's product record (distinct from the web apps' `Product`). */
  datatype Product = Product(id: int, name: string, price: real, quantity: int, category: string, description: string)

  const FixedAdharId := "1234-5678-9101"

  /** `GetAdharID`: the PAN is not consulted; the result is fixed. */
  function GetAdharID(pancardId: string): (adharId: string)
    ensures |adharId| == 14 && adharId[4] == '-' && adharId[9] == '-'
  {
    FixedAdharId
  }

  /** Every PAN maps to the same Aadhaar id. */
  lemma AdharIgnoresPan(pan1: string, pan2: string)
    ensures GetAdharID(pan1) == GetAdharID(pan2) == "1234-5678-9101"
  {
  }

  /** The value `CalculateIncomeTax`'s task completes with. */
  function CalculateIncomeTax(income: real): (tax: real)
    ensures 5.0 * tax == income
    ensures tax == TaxManager.CalculateIncomeTax(income)
  {
    income * 0.2
  }

  /** The value `GetAllAvailableProducts`' task completes with. */
  function GetAllAvailableProducts(): (products: seq<Product>)
    ensures |products| == 3
    ensures forall i :: 0 <= i < 3 ==> products[i].id == i + 1 && products[i].quantity > 0
  {
    [ Product(1, "Sony Bravia", 10.99, 100, "Electronics", "Description of Product 1"),
      Product(2, "Cotton King Shirt", 20.99, 50, "Clothing", "Description of Product 2"),
      Product(3, "Sapiands", 30.99, 25, "Books", "Description of Product 3") ]
  }

  function CalculateSalesTax(amount: real): (tax: real)
    ensures 100.0 * tax == 7.0 * amount
    ensures tax == TaxManager.CalculateSalesTax(amount)
  {
    amount * 0.07
  }

  function CalculatePropertyTax(propertyValue: real): (tax: real)
    ensures 1000.0 * tax == 15.0 * propertyValue
    ensures tax == TaxManager.CalculatePropertyTax(propertyValue)
  {
    propertyValue * 0.015
  }

  function CalculateCapitalGainsTax(capitalGains: real): (tax: real)
    ensures 20.0 * tax == 3.0 * capitalGains
    ensures tax == TaxManager.CalculateCapitalGainsTax(capitalGains)
  {
    capitalGains * 0.15
  }

  function CalculateCorporateTax(corporateIncome: real): (tax: real)
    ensures 4.0 * tax == corporateIncome
    ensures tax == TaxManager.CalculateCorporateTax(corporateIncome)
  {
    corporateIncome * 0.25
  }

  function CalculateWealthTax(netWorth: real): (tax: real)
    ensures 100.0 * tax == netWorth
    ensures tax == TaxManager.CalculateWealthTax(netWorth)
  {
    netWorth * 0.01
  }
}
