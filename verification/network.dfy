/**
 * The network snapshot the route handlers read. It is built and refreshed by
 * the RPC layer, which is not part of this model: here it is an input record
 * holding exactly the fields the handlers use.
 */
module Network {

  /** One advertised address of a node (`{network, addr}`). */
  datatype NodeAddress = NodeAddress(network: string, addr: string)

  /** The node record as the RPC source describes it (`nodeInfo.node`). */
  datatype LightningNode = LightningNode(
    pubKey: string,
    alias: string,
    color: string,
    addresses: seq<NodeAddress>)

  /** An entry of `nodeInfoByPubkey` and of the node orderings. */
  datatype NodeInfo = NodeInfo(node: LightningNode)

  /** A channel edge between two nodes, referenced by public key. */
  datatype ChannelEdge = ChannelEdge(
    channelId: string,
    node1Pub: string,
    node2Pub: string,
    capacity: nat,
    lastUpdate: nat)

  /** The precomputed node orderings (`fnd.nodes`). */
  datatype NodeOrderings = NodeOrderings(
    sortedByLastUpdate: seq<NodeInfo>,
    sortedByChannelCount: seq<NodeInfo>,
    sortedByTotalCapacity: seq<NodeInfo>)

  /** The precomputed channel orderings (`fnd.channels`). */
  datatype ChannelOrderings = ChannelOrderings(
    sortedByLastUpdate: seq<ChannelEdge>,
    sortedByCapacity: seq<ChannelEdge>)

  /** The full network description (`fnd`) handed to every page. */
  datatype FullNetworkDescription = FullNetworkDescription(
    nodeInfoByPubkey: map<string, NodeInfo>,
    channelsById: map<string, ChannelEdge>,
    nodes: NodeOrderings,
    channels: ChannelOrderings)

  /** The channel has `pubKey` as one of its two ends. */
  predicate Touches(c: ChannelEdge, pubKey: string) {
    c.node1Pub == pubKey || c.node2Pub == pubKey
  }
}
