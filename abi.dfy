/** The program interface (ABI) fetched for a deployed token, and the lookup of a function in it. */
module Abi {
  import opened Wrappers

  /** One callable function as the ABI declares it. Only `name` is ever consulted. */
  datatype FunctionDefinition = FunctionDefinition(name: string, accounts: seq<string>, args: seq<string>)

  /** No entry of `abi` carries exactly this name. */
  predicate Lacks(abi: seq<FunctionDefinition>, name: string)
  {
    forall k :: 0 <= k < |abi| ==> abi[k].name != name
  }

  /**
   * The position of the first entry whose name equals `name` exactly, or
   * `None` when there is none (an array `find` over the ABI).
   */
  function FindFunction(abi: seq<FunctionDefinition>, name: string): (r: Option<nat>)
    ensures r.Some? ==> r.value < |abi| && abi[r.value].name == name
    ensures r.Some? ==> forall k :: 0 <= k < r.value ==> abi[k].name != name
    ensures r.None? <==> Lacks(abi, name)
  {
    if |abi| == 0 then None
    else if abi[0].name == name then Some(0)
    else match FindFunction(abi[1..], name)
      case None => None
      case Some(k) => Some(k + 1)
  }

  /** Function names are unique within a program. */
  predicate UniqueNames(abi: seq<FunctionDefinition>)
  {
    forall i, j :: 0 <= i < j < |abi| ==> abi[i].name != abi[j].name
  }

  /** In an ABI with unique names the lookup finds the one entry with that name. */
  lemma FindFunctionUnique(abi: seq<FunctionDefinition>, name: string, k: nat)
    requires UniqueNames(abi) && k < |abi| && abi[k].name == name
    ensures FindFunction(abi, name) == Some(k)
  {
  }

  /** The lookup depends only on the names: the declared schemas play no part. */
  lemma FindFunctionNamesOnly(abi: seq<FunctionDefinition>, other: seq<FunctionDefinition>, name: string)
    requires |abi| == |other|
    requires forall k :: 0 <= k < |abi| ==> abi[k].name == other[k].name
    ensures FindFunction(abi, name) == FindFunction(other, name)
  {

  }
}
