/** Turns the configured balancing method into a balancer, and runs the
    balancer it made. */
module DataBalancerFactory {
  import opened Values
  import opened Models
  import opened Rand
  import NoDataBalancer
  import SmoteDataBalancer
  import AdasynDataBalancer

  const UnsupportedMessage := "Unsupported data balance method"

  /** The three balancers the factory can make. */
  datatype Balancer = NoBalancer | Smote | Adasyn

  /** The method a balancer implements. */
  function MethodOf(b: Balancer): DataBalanceMethod
  {
    match b
    case NoBalancer => DataBalanceMethod.None
    case Smote => SMOTE
    case Adasyn => ADASYN
  }

  /** One balancer per declared method; any other value is refused with an
      argument error. The method's name, which the source appends to the
      message, is left out. */
  function CreateBalancer(balanceMethod: DataBalanceMethod): (r: Result<Balancer>)
    ensures r.Ok? <==> !balanceMethod.UndefinedBalanceMethod?
    ensures r.Ok? ==> MethodOf(r.value) == balanceMethod
    ensures r.Err? ==> r.error == ArgumentException(UnsupportedMessage)
  {
    match balanceMethod
    case None => Ok(NoBalancer)
    case SMOTE => Ok(Smote)
    case ADASYN => Ok(Adasyn)
    case UndefinedBalanceMethod(_) => Err(ArgumentException(UnsupportedMessage))
  }

  /** Every balancer the factory can make is the one made for its method. */
  lemma {:induction false} CreateMethodOf(b: Balancer)
    ensures CreateBalancer(MethodOf(b)) == Ok(b)
  {
    match b
    case NoBalancer =>
    case Smote =>
    case Adasyn =>
  }

  /** What a balancer returns for a dataset. */
  function Balanced(b: Balancer, data: seq<Row>, names: seq<string>, config: DataBalancingConfig,
                    targetField: string, streams: int -> (nat -> Sample)): Result<seq<Row>>
  {
    match b
    case NoBalancer => NoDataBalancer.BalanceDataset(data, names, config, targetField)
    case Smote => SmoteDataBalancer.SmoteBalanced(data, names, config, targetField, streams)
    case Adasyn => AdasynDataBalancer.AdasynBalanced(data, names, config, targetField, streams)
  }

  /** `IDataBalancer.BalanceDataset` called on the balancer the factory made. */
  method BalanceDataset(b: Balancer, data: seq<Row>, names: seq<string>, config: DataBalancingConfig,
                        targetField: string, streams: int -> (nat -> Sample))
    returns (r: Result<seq<Row>>)
    ensures r == Balanced(b, data, names, config, targetField, streams)
    ensures b == NoBalancer ==> r == Ok(data)
  {
    match b
    case NoBalancer =>
      r := NoDataBalancer.BalanceDataset(data, names, config, targetField);
    case Smote =>
      r := SmoteDataBalancer.BalanceDataset(data, names, config, targetField, streams);
    case Adasyn =>
      r := AdasynDataBalancer.BalanceDataset(data, names, config, targetField, streams);
  }
}
