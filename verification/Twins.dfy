// The two deployed suites side by side: fed the same transactions, they stay the same but for what V2 added.
module Twins {
  import opened Common
  import opened Suite
  import opened Journal
  import opened Wiring
  import opened Simulation
  import ContractsV1
  import Deployment

  /** Two suites without a common object, at the same addresses, V1 in the state V2 is in once what it added is forgotten. */
  ghost predicate Related(v2: Deployment.Chain, v1: ContractsV1.Chain)
    reads v1, v1.Objects(), v2, v2.Objects()
  {
    && v2.Connected() && v1.Connected() && v1.net == v2.net
    && v1.Objects() !! v2.Objects()
    && v1.State() == Forget(v2.State())
  }

  /** After any admissible transactions whose challenges are for duplicate claims, the objects are still related. */
  method SubmitToBoth(v2: Deployment.Chain, v1: ContractsV1.Chain, txs: seq<Tx>)
    requires Related(v2, v1) && Wired(v2.net, v2.State()) && NoAllowances(v2.net, v2.token.View())
    requires AdmissibleRun(v2.net, History(v2.State(), []), txs) && forall tx :: tx in txs ==> DuplicatesOnly(tx)
    modifies v2.Objects(), v1.Objects()
    ensures Related(v2, v1)
  {
    RunSimulates(v2.net, History(v2.State(), []), txs);
    v2.SubmitAll(txs);
    v1.SubmitAll(ForgetAll(txs));
  }
}
