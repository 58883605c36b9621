/** The balancer chosen when balancing is switched off: it hands the rows
    back as they came, without looking at the names, the configuration or
    the target field, and without drawing from any generator. */
module NoDataBalancer {
  import opened Values
  import opened Models

  /** The rows balanced by doing nothing. The message the source writes to
      the console is left out. */
  function BalanceDataset(data: seq<Row>, names: seq<string>, config: DataBalancingConfig,
                          targetField: string): (r: Result<seq<Row>>)
    ensures r.Ok? && r.value == data
  {
    Ok(data)
  }
}
