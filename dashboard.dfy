/** The dashboard: the four statistics computed from the fetched portfolio
    and the first six stocks shown as popular. */
module Dashboard {
  import opened Wrappers
  import opened Positions
  import PortfolioPage

  datatype DashboardStats = DashboardStats(
    totalValue: real,
    totalChange: real,
    totalChangePercentage: real,
    positionsCount: int)

  /** The statistics before anything is loaded: all zero. */
  function InitialStats(): (st: DashboardStats)
    ensures st == ComputeStats([])
  {
    DashboardStats(0.0, 0.0, 0.0, 0)
  }

  /** The statistics of a fetched portfolio. */
  function ComputeStats(portfolio: seq<Position>): (st: DashboardStats)
    ensures st.totalValue == TotalValue(portfolio)
    ensures st.totalValue - st.totalChange == TotalInvested(portfolio)
    ensures TotalInvested(portfolio) <= 0.0 ==> st.totalChangePercentage == 0.0
    ensures TotalInvested(portfolio) > 0.0 ==>
      st.totalChangePercentage * TotalInvested(portfolio) == st.totalChange * 100.0
    ensures st.positionsCount == |portfolio|
  {
    var totalValue := TotalValue(portfolio);
    var totalInvested := TotalInvested(portfolio);
    var totalChange := totalValue - totalInvested;
    DashboardStats(totalValue, totalChange, ChangePercentage(totalChange, totalInvested), |portfolio|)
  }

  /** `loadStats`: a fetched portfolio gives new statistics; a failed fetch
      leaves the old ones. */
  function LoadStats(previous: DashboardStats, fetched: Option<seq<Position>>): (st: DashboardStats)
    ensures fetched.None? ==> st == previous
    ensures fetched.Some? ==> st == ComputeStats(fetched.value)
  {
    if fetched.Some? then ComputeStats(fetched.value) else previous
  }

  /** The dashboard and the portfolio page agree on the same positions: the
      dashboard's change (value less invested) is the page's sum of per-
      position changes, and so are the percentages. */
  lemma DashboardAgreesWithPortfolioPage(portfolio: seq<Position>)
    ensures ComputeStats(portfolio).totalValue == TotalValue(portfolio)
    ensures ComputeStats(portfolio).totalChange == PortfolioPage.TotalChange(portfolio)
    ensures ComputeStats(portfolio).totalChangePercentage == PortfolioPage.TotalChangePercentage(portfolio)
  {
  }

  /** `stocks.slice(0, 6)`: the first six stocks, or all of them when
      there are fewer, in order. */
  function PopularStocks(stocks: seq<Quote>): (r: seq<Quote>)
    ensures |r| == if |stocks| < 6 then |stocks| else 6
    ensures r <= stocks
  {
    if |stocks| < 6 then stocks else stocks[..6]
  }
}
