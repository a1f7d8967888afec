/** src/config.py: the payer and geography configuration the scripts read.
    Loading the YAML files is not modelled; their parsed contents are
    values passed to the code that reads them. */
module Config {
  import opened Wrappers

  datatype PayerConfig = PayerConfig(
    name: string,
    indexUrl: string,
    enabled: bool,
    additionalFiles: Option<seq<string>>)

  datatype GeographyConfig = GeographyConfig(states: seq<string>, zipPrefixes: Option<seq<string>>)

  datatype PayersConfig = PayersConfig(payers: seq<PayerConfig>, geography: GeographyConfig)

  /** The states of a geography section that leaves them out. */
  const DefaultStates: seq<string> := ["MN"]

  /** The first payer called `name`, in configuration order. */
  function FirstNamed(payers: seq<PayerConfig>, name: string): (r: Option<PayerConfig>)
    ensures r.None? <==> forall i :: 0 <= i < |payers| ==> payers[i].name != name
    ensures r.Some? ==> r.value.name == name
    ensures r.Some? ==>
      exists i :: 0 <= i < |payers| && payers[i] == r.value && (forall k :: 0 <= k < i ==> payers[k].name != name)
  {
    if payers == [] then None
    else if payers[0].name == name then Some(payers[0])
    else
      assert forall i :: 0 < i < |payers| ==> payers[i] == payers[1..][i - 1];
      FirstNamed(payers[1..], name)
  }

  /** The loop the scripts run over `config.payers`, returning at the first
      payer with the name. */
  method FindPayer(payers: seq<PayerConfig>, name: string) returns (r: Option<PayerConfig>)
    ensures r == FirstNamed(payers, name)
  {
    for i := 0 to |payers|
      invariant FirstNamed(payers, name) == FirstNamed(payers[i..], name)
    {
      assert payers[i..][1..] == payers[i + 1..];
      if payers[i].name == name {
        return Some(payers[i]);
      }
    }
    assert payers[|payers|..] == [];
    r := None;
  }
}
