/** The per-employee deduction map kept by the net-pay processor: one entry per deduction id,
    and the fixed and percentage totals over the active entries. */
module DeductionMaps {

  datatype DeductionEntry = DeductionEntry(amount: real, isPercentage: bool, isActive: bool)

  /** The stored (serialised) form of a deduction map. */
  datatype DeductionMapData = DeductionMapData(employeeId: string, deductions: map<string, DeductionEntry>)

  /** What one entry adds to the fixed total (`percent` false) or to the percentage total of
      `grossPay` (`percent` true): only active entries of the matching kind count. */
  function Contribution(e: DeductionEntry, percent: bool, grossPay: real): (c: real)
    ensures !e.isActive || e.isPercentage != percent ==> c == 0.0
  {
    if e.isActive && e.isPercentage == percent then
      (if percent then Scaled(e.amount / 100.0, grossPay) else e.amount)
    else 0.0
  }

  /** `rate × base`. */
  function Scaled(rate: real, base: real): real {
    rate * base
  }

  /** Scaling distributes over a sum, and scaling a rate by 1 leaves it alone. */
  lemma ScaledSum(a: real, b: real, base: real)
    ensures Scaled(a, base) + Scaled(b, base) == Scaled(a + b, base)
    ensures Scaled(Scaled(a, 1.0), base) == Scaled(a, base)
  {
  }

  /** The sum of the contributions of all entries (a stream sum; the order does not matter
      over exact reals, see `TotalWithout`). */
  ghost function Total(m: map<string, DeductionEntry>, percent: bool, grossPay: real): real
    decreases |m|
  {
    if |m| == 0 then 0.0
    else
      var k := PickKey(m);
      Contribution(m[k], percent, grossPay) + Total(m - {k}, percent, grossPay)
  }

  ghost function PickKey(m: map<string, DeductionEntry>): (k: string)
    requires |m| > 0
    ensures k in m
  {
    assert |m.Keys| > 0;
    var k :| k in m.Keys;
    k
  }

  /** Any entry can be taken out first: the total is that entry's contribution plus the rest. */
  lemma {:induction false} TotalWithout(m: map<string, DeductionEntry>, k: string, percent: bool, grossPay: real)
    requires k in m
    ensures Total(m, percent, grossPay) == Contribution(m[k], percent, grossPay) + Total(m - {k}, percent, grossPay)
    decreases |m|
  {
    var j := PickKey(m);
    if j != k {
      assert |m - {j}| == |m| - 1;
      assert |m - {k}| == |m| - 1;
      TotalWithout(m - {j}, k, percent, grossPay);
      TotalWithout(m - {k}, j, percent, grossPay);
      assert m - {j} - {k} == m - {k} - {j};
    }
  }

  /** Putting an entry replaces that id's contribution and leaves the others' untouched. */
  lemma TotalAfterPut(m: map<string, DeductionEntry>, id: string, e: DeductionEntry, percent: bool, grossPay: real)
    ensures Total(m[id := e], percent, grossPay) == Contribution(e, percent, grossPay) + Total(m - {id}, percent, grossPay)
  {
    TotalWithout(m[id := e], id, percent, grossPay);
    assert m[id := e] - {id} == m - {id};
  }

  /** An inactive entry counts in neither total: marking an entry inactive is the same as
      removing it. */
  lemma InactiveEntryIgnored(m: map<string, DeductionEntry>, id: string, e: DeductionEntry, percent: bool, grossPay: real)
    requires !e.isActive
    ensures Total(m[id := e], percent, grossPay) == Total(m - {id}, percent, grossPay)
  {
    TotalAfterPut(m, id, e, percent, grossPay);
  }

  /** With no active entry, both totals are zero. */
  lemma {:induction false} NoActiveEntryTotalZero(m: map<string, DeductionEntry>, percent: bool, grossPay: real)
    requires forall k :: k in m ==> !m[k].isActive
    ensures Total(m, percent, grossPay) == 0.0
    decreases |m|
  {
    if |m| > 0 {
      var k := PickKey(m);
      assert |m - {k}| == |m| - 1;
      NoActiveEntryTotalZero(m - {k}, percent, grossPay);
    }
  }

  /** The percentage total is the gross pay times the sum of the active percentages over 100. */
  lemma {:induction false} PercentTotalScales(m: map<string, DeductionEntry>, grossPay: real)
    ensures Total(m, true, grossPay) == Scaled(Total(m, true, 1.0), grossPay)
    decreases |m|
  {
    if |m| > 0 {
      var k := PickKey(m);
      assert |m - {k}| == |m| - 1;
      PercentTotalScales(m - {k}, grossPay);
      var c := Contribution(m[k], true, 1.0);
      ScaledSum(c, Total(m - {k}, true, 1.0), grossPay);
      ScaledSum(m[k].amount / 100.0, 0.0, grossPay);
      assert Contribution(m[k], true, grossPay) == Scaled(c, grossPay);
    } else {
      ScaledSum(0.0, 0.0, grossPay);
    }
  }

  class DeductionMap {
    var employeeId: string
    var deductions: map<string, DeductionEntry>

    function Data(): DeductionMapData
      reads this
    {
      DeductionMapData(employeeId, deductions)
    }

    /** `new DeductionMap(employeeId)`: no entries. */
    constructor(employeeId: string)
      ensures this.employeeId == employeeId && deductions == map[]
    {
      this.employeeId := employeeId;
      deductions := map[];
    }

    /** Reading a stored map back. */
    constructor Load(d: DeductionMapData)
      ensures Data() == d
    {
      employeeId := d.employeeId;
      deductions := d.deductions;
    }

    /** `putDeduction`: replaces the entry with that id, or adds it; the others are untouched. */
    method PutDeduction(deductionId: string, amount: real, isPercentage: bool, isActive: bool)
      modifies this
      ensures deductions == old(deductions)[deductionId := DeductionEntry(amount, isPercentage, isActive)]
      ensures employeeId == old(employeeId)
    {
      deductions := deductions[deductionId := DeductionEntry(amount, isPercentage, isActive)];
    }

    /** `computeFixedTotal`: the amounts of the active fixed entries. */
    ghost function ComputeFixedTotal(): (t: real)
      reads this
      ensures (forall k :: k in deductions ==> !deductions[k].isActive) ==> t == 0.0
    {
      NoActiveEntryTotalZeroFixed(deductions);
      Total(deductions, false, 0.0)
    }

    /** `computePercentTotal`: `amount / 100 × grossPay` over the active percentage entries. */
    ghost function ComputePercentTotal(grossPay: real): (t: real)
      reads this
      ensures t == Scaled(Total(deductions, true, 1.0), grossPay)
    {
      PercentTotalScales(deductions, grossPay);
      Total(deductions, true, grossPay)
    }
  }

  lemma NoActiveEntryTotalZeroFixed(m: map<string, DeductionEntry>)
    ensures (forall k :: k in m ==> !m[k].isActive) ==> Total(m, false, 0.0) == 0.0
  {
    if forall k :: k in m ==> !m[k].isActive {
      NoActiveEntryTotalZero(m, false, 0.0);
    }
  }
}
