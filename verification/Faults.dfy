/**
 Where one reconcile pass can be cut short.

 The first call that fails ends a pass, so a pass is determined by its inputs and by one
 `Fault`: the call that fails, whether that call took effect before it failed, and
 whether the failure report itself (a status patch) reached the API server.  Because the
 state after a cut pass is the state between two calls of a longer pass, a property of
 `Pass(w, f)` for every `f` is a property of every point inside a pass.
 */
module Faults {

  /** The calls of a pass.  Each is made at most once per pass. */
  datatype Site =
    | Nowhere
    | GetNetwork | UpdateFinalizer | GetCluster | PatchOwner | PatchClusterUID | ExpireNetwork
    | Credentials
    | PatchToken
    | ReadVPC | CreateVPC | PatchVPC
    | ReadSubnet | CreateSubnet | PatchSubnet
    | ReadGroup | CreateGroup | PatchGroup
    | ReadRules | AddRule(wanted: nat) | RemoveRule(obsolete: nat, existing: nat)
    | ListMachines | PatchResources | PatchReady
    | ReadPorts | VerifyOwnership | DeleteResource | ClearResource
    | RemoveFinalizer

  datatype Fault = Fault(at: Site, took: bool, told: bool)

  const NO_FAULT := Fault(Nowhere, false, true)

  predicate Hit(f: Fault, s: Site) {
    f.at == s
  }
}
