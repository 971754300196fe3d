/** The dashboard (`components/Dashboard.tsx`): the number, sales and profit of the jobs
    not yet shipped, and the profit margin. */
module Dashboard {
  import opened Wrappers
  import opened Seqs
  import opened Types

  /** `activeJobs`: the jobs whose status is not shipped, in list order. */
  function ActiveJobs(jobs: seq<Job>): (r: seq<Job>)
    ensures forall j :: j in r <==> j in jobs && j.status != Shipped.Label()
    ensures |r| <= |jobs|
  {
    Filter(jobs, (j: Job) => j.status != Shipped.Label())
  }

  function Price(j: Job): int { j.price }
  function CostOf(j: Job): int { j.cost }
  function Profit(j: Job): int { j.price - j.cost }

  datatype Summary = Summary(totalActiveJobs: int, totalSales: int, totalProfit: int)

  /** The three figures: the count of active jobs, the sum of their prices, and the sum
      of their profits, which is their sales less their costs. */
  function Summarize(jobs: seq<Job>): (r: Summary)
    ensures r.totalActiveJobs == |ActiveJobs(jobs)|
    ensures r.totalSales == SumBy(ActiveJobs(jobs), Price)
    ensures r.totalProfit == SumBy(ActiveJobs(jobs), Price) - SumBy(ActiveJobs(jobs), CostOf)
  {
    var active := ActiveJobs(jobs);
    SumByDifference(active, Price, CostOf, Profit);
    Summary(|active|, SumBy(active, Price), SumBy(active, Profit))
  }

  /** Summing over the active jobs is summing over all jobs with the shipped ones
      counted as zero. */
  lemma ActiveSales(jobs: seq<Job>)
    ensures Summarize(jobs).totalSales
            == SumBy(jobs, (j: Job) => if j.status != Shipped.Label() then j.price else 0)
  {
    SumByFilter(jobs, (j: Job) => j.status != Shipped.Label(), Price,
                (j: Job) => if j.status != Shipped.Label() then j.price else 0);
  }

  /** Shipping a job takes it off the dashboard: its price leaves the sales and its
      profit leaves the profit. */
  lemma ShippingRemovesJob(before: seq<Job>, job: Job, after: seq<Job>)
    requires job.status != Shipped.Label()
    ensures Summarize(before + [job] + after).totalActiveJobs
            == Summarize(before + [job.(status := Shipped.Label())] + after).totalActiveJobs + 1
    ensures Summarize(before + [job] + after).totalSales
            == Summarize(before + [job.(status := Shipped.Label())] + after).totalSales + job.price
    ensures Summarize(before + [job] + after).totalProfit
            == Summarize(before + [job.(status := Shipped.Label())] + after).totalProfit + (job.price - CostOf(job))
  {
    var p := (j: Job) => j.status != Shipped.Label();
    var shipped := job.(status := Shipped.Label());
    FilterConcat(before + [job], after, p);
    FilterConcat(before, [job], p);
    FilterConcat(before + [shipped], after, p);
    FilterConcat(before, [shipped], p);
    assert Filter([job], p) == [job];
    assert Filter([shipped], p) == [];
    var a, b := Filter(before, p), Filter(after, p);
    SumByConcat(a + [job], b, Price);
    SumByConcat(a, [job], Price);
    SumByConcat(a, b, Price);
    SumByConcat(a + [job], b, CostOf);
    SumByConcat(a, [job], CostOf);
    SumByConcat(a, b, CostOf);
    assert a + [] + b == a + b;
  }

  /** The margin, in percent, shown only when sales are positive (otherwise `-%`). */
  function Margin(s: Summary): (r: Option<real>)
    ensures r.Some? <==> s.totalSales > 0
    ensures r.Some? ==> r.value * (s.totalSales as real) == (s.totalProfit as real) * 100.0
  {
    if s.totalSales > 0 then Some((s.totalProfit as real) / (s.totalSales as real) * 100.0) else None
  }
}
