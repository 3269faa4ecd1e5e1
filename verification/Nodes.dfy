/** Choice of the node address shown to users (getNodeIP in internal/controller/kubenova_controller.go). */
module Nodes {
  import opened Types

  datatype AddressType = ExternalIP | InternalIP | OtherAddress
  datatype Address = Address(kind: AddressType, address: string)
  /** A node condition: whether its type is Ready, and whether its status is True. */
  datatype NodeCondition = NodeCondition(isReadyType: bool, isTrue: bool)
  datatype Node = Node(conditions: seq<NodeCondition>, addresses: seq<Address>)

  ghost predicate IsReady(node: Node) {
    exists c :: c in node.conditions && c.isReadyType && c.isTrue
  }

  /** `a` is the first address of one of these kinds. */
  ghost predicate IsFirst(addresses: seq<Address>, kinds: set<AddressType>, a: string) {
    exists i :: 0 <= i < |addresses| && addresses[i].kind in kinds && addresses[i].address == a
                && forall j :: 0 <= j < i ==> addresses[j].kind !in kinds
  }

  ghost predicate Has(addresses: seq<Address>, kinds: set<AddressType>) {
    exists a :: a in addresses && a.kind in kinds
  }

  const ROUTABLE := {ExternalIP, InternalIP}

  ghost predicate Usable(node: Node) {
    IsReady(node) && Has(node.addresses, ROUTABLE)
  }

  /** The first External address if there is one, else the first Internal address. */
  ghost predicate Preferred(node: Node, ip: string) {
    IsFirst(node.addresses, if Has(node.addresses, {ExternalIP}) then {ExternalIP} else {InternalIP}, ip)
  }

  /** The rule: the preferred address of the first usable node; if no node is usable, the first routable
      address of node 0, ready or not; if there is none, the empty string. */
  ghost predicate NodeIPRule(nodes: seq<Node>, ip: string) {
    if exists i :: 0 <= i < |nodes| && Usable(nodes[i]) then
      exists i :: 0 <= i < |nodes| && Usable(nodes[i]) && (forall j :: 0 <= j < i ==> !Usable(nodes[j]))
                  && Preferred(nodes[i], ip)
    else if nodes != [] && Has(nodes[0].addresses, ROUTABLE) then
      IsFirst(nodes[0].addresses, ROUTABLE, ip)
    else
      ip == ""
  }

  /** The rule leaves no choice. */
  lemma NodeIPRuleIsFunctional(nodes: seq<Node>, ip: string, ip': string)
    requires NodeIPRule(nodes, ip) && NodeIPRule(nodes, ip')
    ensures ip == ip'
  {
    if exists i :: 0 <= i < |nodes| && Usable(nodes[i]) {
      var i :| 0 <= i < |nodes| && Usable(nodes[i]) && (forall j :: 0 <= j < i ==> !Usable(nodes[j]))
               && Preferred(nodes[i], ip);
      var i' :| 0 <= i' < |nodes| && Usable(nodes[i']) && (forall j :: 0 <= j < i' ==> !Usable(nodes[j]))
                && Preferred(nodes[i'], ip');
      assert i == i';
    }
  }

  /** The address the rule picks. */
  ghost function NodeIP(nodes: seq<Node>): string {
    if exists ip :: NodeIPRule(nodes, ip) then
      var ip :| NodeIPRule(nodes, ip); ip
    else
      ""
  }

  method FindAddress(addresses: seq<Address>, kinds: set<AddressType>) returns (found: Option<string>)
    ensures found.Some? <==> Has(addresses, kinds)
    ensures found.Some? ==> IsFirst(addresses, kinds, found.value)
  {
    for i := 0 to |addresses|
      invariant forall j :: 0 <= j < i ==> addresses[j].kind !in kinds
    {
      if addresses[i].kind in kinds {
        return Some(addresses[i].address);
      }
    }
    return None;
  }

  method GetNodeIP(nodes: seq<Node>) returns (ip: string)
    ensures NodeIPRule(nodes, ip) && ip == NodeIP(nodes)
  {
    ip := SearchNodes(nodes);
    NodeIPRuleIsFunctional(nodes, ip, NodeIP(nodes));
  }

  method SearchNodes(nodes: seq<Node>) returns (ip: string)
    ensures NodeIPRule(nodes, ip)
  {
    if |nodes| == 0 {
      return "";
    }
    for i := 0 to |nodes|
      invariant forall j :: 0 <= j < i ==> !Usable(nodes[j])
    {
      var isReady := false;
      var conditions := nodes[i].conditions;
      for c := 0 to |conditions|
        invariant !isReady
        invariant forall d :: 0 <= d < c ==> !(conditions[d].isReadyType && conditions[d].isTrue)
      {
        if conditions[c].isReadyType && conditions[c].isTrue {
          isReady := true;
          break;
        }
      }
      if !isReady {
        continue;
      }
      var external := FindAddress(nodes[i].addresses, {ExternalIP});
      if external.Some? {
        return external.value;
      }
      var internalAddress := FindAddress(nodes[i].addresses, {InternalIP});
      if internalAddress.Some? {
        return internalAddress.value;
      }
    }
    var any := FindAddress(nodes[0].addresses, ROUTABLE);
    if any.Some? {
      return any.value;
    }
    return "";
  }
}
