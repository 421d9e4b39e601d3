/**
 * The logic inside the route handlers: choosing and paging an ordering for
 * the node and channel lists, the node and channel pages, the QR strings of
 * the node-status page, search, and the settings switch. Rendering and
 * redirecting are returned as values instead of being performed.
 */
module Router {
  import opened Wrappers
  import opened JsText
  import opened Network
  import opened SessionState
  import App

  // ---------------------------------------------------------------------------
  // Listing pages (/nodes and /channels)
  // ---------------------------------------------------------------------------

  /** The query parameters `limit`, `offset` and `sort`; `None` when absent. */
  datatype ListQuery = ListQuery(limit: Option<string>, offset: Option<string>, sort: Option<string>)

  /** What a listing page shows: the settings it echoes and the page of items. */
  datatype Listing<T> = Listing(limit: nat, offset: nat, sort: string, items: seq<T>)

  const DefaultLimit: nat := 20
  const DefaultOffset: nat := 0
  /** The default sort string: newest update first. */
  function DefaultSort(): string { "last_update-desc" }

  /** `if (req.query.x)`: the parameter is present and not empty. */
  predicate Given(p: Option<string>) {
    p.Some? && p.value != ""
  }

  /** A given count parameter must start with a digit, so that `parseInt` yields a number. */
  predicate ParsesAsCount(p: Option<string>) {
    !Given(p) || ParseInt(p.value).Some?
  }

  /** A count parameter: `parseInt` of it when given, else the default. */
  function CountParam(p: Option<string>, default: nat): (r: nat)
    requires ParsesAsCount(p)
    ensures !Given(p) ==> r == default
    ensures Given(p) ==> ParseInt(p.value) == Some(r)
  {
    if Given(p) then ParseInt(p.value).value else default
  }

  /** The sort parameter when given, else the default sort. */
  function SortParam(p: Option<string>): (r: string)
    ensures Given(p) ==> r == p.value
    ensures !Given(p) ==> r == DefaultSort()
  {
    if Given(p) then p.value else DefaultSort()
  }

  /**
   * `sort.substring(0, sort.indexOf("-"))` and `sort.substring(sort.indexOf("-") + 1)`:
   * with a dash, the property is the text before the first dash and the
   * direction the text after it; without one, the property is empty and the
   * direction is the whole string.
   */
  function SplitSort(sort: string): (r: (string, string))
    ensures '-' in sort ==> sort == r.0 + "-" + r.1 && '-' !in r.0
    ensures '-' !in sort ==> r.0 == "" && r.1 == sort
  {
    var k := IndexOf(sort, "-");
    DashIndex(sort);
    (Substring(sort, 0, k), SubstringFrom(sort, k + 1))
  }

  /** `indexOf("-")` finds the first dash, and -1 exactly when there is none. */
  lemma DashIndex(sort: string)
    ensures var k := IndexOf(sort, "-");
      && (k == -1 <==> '-' !in sort)
      && (k != -1 ==> 0 <= k < |sort| && sort[k] == '-' && '-' !in sort[..k])
  {
    var k := IndexOf(sort, "-");
    forall i | 0 <= i < |sort| ensures OccursAt(sort, "-", i) <==> sort[i] == '-' {
      OccursAtChar(sort, '-', i);
    }
  }

  /** Joining a dash-free property and a direction with a dash and splitting again gives both back. */
  lemma SplitSortJoin(property: string, direction: string)
    requires '-' !in property
    ensures SplitSort(property + "-" + direction) == (property, direction)
  {
    var sort := property + "-" + direction;
    assert sort[|property|] == '-';
    var r := SplitSort(sort);
    assert |r.0| == |property|;
    assert r.0 == sort[..|property|] == property;
    assert r.1 == sort[|property| + 1..] == direction;
  }

  /** `list.slice(offset, offset + limit)` for non-negative offset and limit. */
  function Page<T>(list: seq<T>, offset: nat, limit: nat): (r: seq<T>)
    ensures |r| <= limit
    ensures offset >= |list| ==> r == []
    ensures offset < |list| ==> |r| == if offset + limit <= |list| then limit else |list| - offset
    ensures forall i :: 0 <= i < |r| ==> offset + i < |list| && r[i] == list[offset + i]
  {
    if offset >= |list| then []
    else if offset + limit <= |list| then list[offset..offset + limit]
    else list[offset..]
  }

  predicate IsKnownNodeSort(property: string) {
    property == "last_update" || property == "num_channels" || property == "channel_capacity"
  }

  /**
   * The node ordering a sort property selects: by last update, by channel
   * count or by total capacity for the three known properties, and by last
   * update for anything else.
   */
  function NodeOrdering(fnd: FullNetworkDescription, property: string): (r: seq<NodeInfo>)
    ensures property == "last_update" ==> r == fnd.nodes.sortedByLastUpdate
    ensures property == "num_channels" ==> r == fnd.nodes.sortedByChannelCount
    ensures property == "channel_capacity" ==> r == fnd.nodes.sortedByTotalCapacity
    ensures !IsKnownNodeSort(property) ==> r == fnd.nodes.sortedByLastUpdate
  {
    if property == "last_update" then fnd.nodes.sortedByLastUpdate
    else if property == "num_channels" then fnd.nodes.sortedByChannelCount
    else if property == "channel_capacity" then fnd.nodes.sortedByTotalCapacity
    else fnd.nodes.sortedByLastUpdate
  }

  /**
   * The channel ordering a sort property selects: by capacity for
   * "capacity", by last update for anything else.
   */
  function ChannelOrdering(fnd: FullNetworkDescription, property: string): (r: seq<ChannelEdge>)
    ensures r == if property == "capacity" then fnd.channels.sortedByCapacity
                 else fnd.channels.sortedByLastUpdate
  {
    if property == "last_update" then fnd.channels.sortedByLastUpdate
    else if property == "capacity" then fnd.channels.sortedByCapacity
    else fnd.channels.sortedByLastUpdate
  }

  /**
   * The /nodes handler: absent parameters default to 20, 0 and
   * "last_update-desc", and the page is the contiguous run of the selected
   * ordering that starts at the offset and holds at most `limit` nodes.
   */
  function NodesPage(fnd: FullNetworkDescription, q: ListQuery): (r: Listing<NodeInfo>)
    requires ParsesAsCount(q.limit) && ParsesAsCount(q.offset)
    ensures !Given(q.limit) ==> r.limit == DefaultLimit
    ensures !Given(q.offset) ==> r.offset == DefaultOffset
    ensures !Given(q.sort) ==> r.sort == DefaultSort()
    ensures Given(q.limit) ==> ParseInt(q.limit.value) == Some(r.limit)
    ensures Given(q.offset) ==> ParseInt(q.offset.value) == Some(r.offset)
    ensures Given(q.sort) ==> r.sort == q.sort.value
    ensures |r.items| <= r.limit
    ensures r.items == Page(NodeOrdering(fnd, SplitSort(r.sort).0), r.offset, r.limit)
    ensures var ordering := NodeOrdering(fnd, SplitSort(r.sort).0);
      forall i :: 0 <= i < |r.items| ==> r.offset + i < |ordering| && r.items[i] == ordering[r.offset + i]
    ensures var ordering := NodeOrdering(fnd, SplitSort(r.sort).0);
      r.offset >= |ordering| ==> r.items == []
  {
    var limit := CountParam(q.limit, DefaultLimit);
    var offset := CountParam(q.offset, DefaultOffset);
    var sort := SortParam(q.sort);
    var ordering := NodeOrdering(fnd, SplitSort(sort).0);
    var items := Page(ordering, offset, limit);
    Listing(limit, offset, sort, items)
  }

  /** The /channels handler, with the same defaults and paging as /nodes. */
  function ChannelsPage(fnd: FullNetworkDescription, q: ListQuery): (r: Listing<ChannelEdge>)
    requires ParsesAsCount(q.limit) && ParsesAsCount(q.offset)
    ensures !Given(q.limit) ==> r.limit == DefaultLimit
    ensures !Given(q.offset) ==> r.offset == DefaultOffset
    ensures !Given(q.sort) ==> r.sort == DefaultSort()
    ensures Given(q.limit) ==> ParseInt(q.limit.value) == Some(r.limit)
    ensures Given(q.offset) ==> ParseInt(q.offset.value) == Some(r.offset)
    ensures Given(q.sort) ==> r.sort == q.sort.value
    ensures |r.items| <= r.limit
    ensures r.items == Page(ChannelOrdering(fnd, SplitSort(r.sort).0), r.offset, r.limit)
    ensures var ordering := ChannelOrdering(fnd, SplitSort(r.sort).0);
      forall i :: 0 <= i < |r.items| ==> r.offset + i < |ordering| && r.items[i] == ordering[r.offset + i]
    ensures var ordering := ChannelOrdering(fnd, SplitSort(r.sort).0);
      r.offset >= |ordering| ==> r.items == []
  {
    var limit := CountParam(q.limit, DefaultLimit);
    var offset := CountParam(q.offset, DefaultOffset);
    var sort := SortParam(q.sort);
    var ordering := ChannelOrdering(fnd, SplitSort(sort).0);
    var items := Page(ordering, offset, limit);
    Listing(limit, offset, sort, items)
  }

  /** The sort direction never changes which nodes a page shows. */
  lemma NodeSortDirectionIgnored(fnd: FullNetworkDescription, q: ListQuery,
                                 property: string, d1: string, d2: string)
    requires ParsesAsCount(q.limit) && ParsesAsCount(q.offset)
    requires '-' !in property
    ensures NodesPage(fnd, q.(sort := Some(property + "-" + d1))).items
         == NodesPage(fnd, q.(sort := Some(property + "-" + d2))).items
  {
    SplitSortJoin(property, d1);
    SplitSortJoin(property, d2);
  }

  /** The sort direction never changes which channels a page shows. */
  lemma ChannelSortDirectionIgnored(fnd: FullNetworkDescription, q: ListQuery,
                                    property: string, d1: string, d2: string)
    requires ParsesAsCount(q.limit) && ParsesAsCount(q.offset)
    requires '-' !in property
    ensures ChannelsPage(fnd, q.(sort := Some(property + "-" + d1))).items
         == ChannelsPage(fnd, q.(sort := Some(property + "-" + d2))).items
  {
    SplitSortJoin(property, d1);
    SplitSortJoin(property, d2);
  }

  /**
   * A sort string without a dash has an empty property, so even a known
   * property name given alone ("num_channels") lists nodes by last update.
   */
  lemma DashlessSortFallsBack(fnd: FullNetworkDescription, q: ListQuery)
    requires ParsesAsCount(q.limit) && ParsesAsCount(q.offset)
    requires Given(q.sort) && '-' !in q.sort.value
    ensures var r := NodesPage(fnd, q);
      r.items == Page(fnd.nodes.sortedByLastUpdate, r.offset, r.limit)
  {
  }

  // ---------------------------------------------------------------------------
  // Node page (/node/:nodePubKey)
  // ---------------------------------------------------------------------------

  /** The channels touching `pubKey`, in the order of `cs`. */
  function IncidentChannels(cs: seq<ChannelEdge>, pubKey: string): seq<ChannelEdge> {
    if cs == [] then []
    else
      var last := cs[|cs| - 1];
      IncidentChannels(cs[..|cs| - 1], pubKey) + if Touches(last, pubKey) then [last] else []
  }

  /** The positions in `cs` of the channels touching `pubKey`, ascending. */
  function IncidentPositions(cs: seq<ChannelEdge>, pubKey: string): seq<nat> {
    if cs == [] then []
    else
      IncidentPositions(cs[..|cs| - 1], pubKey) + if Touches(cs[|cs| - 1], pubKey) then [|cs| - 1] else []
  }

  /**
   * The node's channel list is `cs` restricted to the channels touching the
   * node: it picks, in strictly increasing order, exactly the positions of
   * `cs` whose channel has the key at either end.
   */
  lemma {:induction false} IncidentChannelsExact(cs: seq<ChannelEdge>, pubKey: string)
    ensures var r, pos := IncidentChannels(cs, pubKey), IncidentPositions(cs, pubKey);
      && |pos| == |r|
      && (forall i :: 0 <= i < |pos| ==> pos[i] < |cs| && r[i] == cs[pos[i]])
      && (forall i, j :: 0 <= i < j < |pos| ==> pos[i] < pos[j])
      && (forall p :: 0 <= p < |cs| ==> (p in pos <==> Touches(cs[p], pubKey)))
  {
    if cs != [] {
      var init := cs[..|cs| - 1];
      IncidentChannelsExact(init, pubKey);
      assert forall p :: 0 <= p < |init| ==> init[p] == cs[p];
    }
  }

  /** When the ordering lists each channel once, so does the node's channel list. */
  lemma IncidentChannelsDistinct(cs: seq<ChannelEdge>, pubKey: string)
    requires forall i, j :: 0 <= i < j < |cs| ==> cs[i] != cs[j]
    ensures var r := IncidentChannels(cs, pubKey);
      forall i, j :: 0 <= i < j < |r| ==> r[i] != r[j]
  {
    IncidentChannelsExact(cs, pubKey);
  }

  /** Lines 26-31: push every channel that touches the node, in order. */
  method CollectNodeChannels(channels: seq<ChannelEdge>, pubKey: string) returns (nodeChannels: seq<ChannelEdge>)
    ensures nodeChannels == IncidentChannels(channels, pubKey)
  {
    nodeChannels := [];
    for i := 0 to |channels|
      invariant nodeChannels == IncidentChannels(channels[..i], pubKey)
    {
      assert channels[..i + 1][..i] == channels[..i];
      if Touches(channels[i], pubKey) {
        nodeChannels := nodeChannels + [channels[i]];
      }
    }
    assert channels[..|channels|] == channels;
  }

  /** The first position at or after `from` of an address on the "tcp" network, or -1. */
  function FirstTcpFrom(addresses: seq<NodeAddress>, from: nat): (k: int)
    requires from <= |addresses|
    ensures k == -1 || (from <= k < |addresses| && addresses[k].network == "tcp")
    ensures forall j :: from <= j < |addresses| && (k == -1 || j < k) ==> addresses[j].network != "tcp"
    decreases |addresses| - from
  {
    if from == |addresses| then -1
    else if addresses[from].network == "tcp" then from
    else FirstTcpFrom(addresses, from + 1)
  }

  /**
   * `pubKey@addr` for the first "tcp" address, and nothing when the node
   * advertises no tcp address.
   */
  function NodeUri(pubKey: string, addresses: seq<NodeAddress>): (uri: Option<string>)
    ensures uri.None? <==> forall j :: 0 <= j < |addresses| ==> addresses[j].network != "tcp"
    ensures uri.Some? ==>
      (exists k :: && 0 <= k < |addresses| && addresses[k].network == "tcp"
                   && (forall j :: 0 <= j < k ==> addresses[j].network != "tcp")
                   && uri.value == pubKey + "@" + addresses[k].addr)
  {
    var k := FirstTcpFrom(addresses, 0);
    if k == -1 then None else Some(pubKey + "@" + addresses[k].addr)
  }

  /** Lines 37-45: the indexed scan that stops at the first tcp address. */
  method FindNodeUri(pubKey: string, addresses: seq<NodeAddress>) returns (uri: Option<string>)
    ensures uri == NodeUri(pubKey, addresses)
  {
    uri := None;
    for i := 0 to |addresses|
      invariant forall j :: 0 <= j < i ==> addresses[j].network != "tcp"
    {
      if addresses[i].network == "tcp" {
        uri := Some(pubKey + "@" + addresses[i].addr);
        assert FirstTcpFrom(addresses, 0) == i;
        return;
      }
    }
    assert FirstTcpFrom(addresses, 0) == -1;
  }

  /** The strings the QR codes are made from: `first`, then `second` when there is one. */
  function QrStrings(first: string, second: Option<string>): (r: seq<string>)
    ensures 1 <= |r| <= 2 && r[0] == first
    ensures |r| == 2 <==> second.Some?
    ensures second.Some? ==> r[1] == second.value
  {
    [first] + match second case Some(s) => [s] case None => []
  }

  /** The node page's view. */
  datatype NodeView = NodeView(
    nodeInfo: NodeInfo,
    nodeChannels: seq<ChannelEdge>,
    nodeUri: Option<string>,
    qrcodeStrings: seq<string>)

  /**
   * The /node/:nodePubKey handler up to rendering. An unknown key makes the
   * handler fail on `nodeInfo.node` before anything is rendered: `None`.
   */
  method NodePage(fnd: FullNetworkDescription, nodePubKey: string) returns (r: Option<NodeView>)
    ensures r.None? <==> nodePubKey !in fnd.nodeInfoByPubkey
    ensures r.Some? ==> r.value.nodeInfo == fnd.nodeInfoByPubkey[nodePubKey]
    ensures r.Some? ==> r.value.nodeChannels == IncidentChannels(fnd.channels.sortedByLastUpdate, nodePubKey)
    ensures r.Some? ==> r.value.nodeUri == NodeUri(nodePubKey, r.value.nodeInfo.node.addresses)
    ensures r.Some? ==> r.value.qrcodeStrings == QrStrings(nodePubKey, r.value.nodeUri)
  {
    var nodeChannels := CollectNodeChannels(fnd.channels.sortedByLastUpdate, nodePubKey);
    if nodePubKey !in fnd.nodeInfoByPubkey {
      return None;
    }
    var nodeInfo := fnd.nodeInfoByPubkey[nodePubKey];
    var nodeUri := FindNodeUri(nodePubKey, nodeInfo.node.addresses);
    r := Some(NodeView(nodeInfo, nodeChannels, nodeUri, QrStrings(nodePubKey, nodeUri)));
  }

  // ---------------------------------------------------------------------------
  // Channel page (/channel/:channelId) and node-status QR strings
  // ---------------------------------------------------------------------------

  datatype ChannelView = ChannelView(channel: ChannelEdge, node1: Option<NodeInfo>, node2: Option<NodeInfo>)

  function Lookup(m: map<string, NodeInfo>, key: string): (r: Option<NodeInfo>)
    ensures r.Some? <==> key in m
    ensures r.Some? ==> r.value == m[key]
  {
    if key in m then Some(m[key]) else None
  }

  /**
   * The /channel/:channelId handler: the channel and its two end nodes as
   * far as they are known. An unknown id fails on `channel.node1_pub`: `None`.
   */
  function ChannelPage(fnd: FullNetworkDescription, channelId: string): (r: Option<ChannelView>)
    ensures r.None? <==> channelId !in fnd.channelsById
    ensures r.Some? ==> r.value.channel == fnd.channelsById[channelId]
    ensures r.Some? ==> (r.value.node1.Some? <==> r.value.channel.node1Pub in fnd.nodeInfoByPubkey)
    ensures r.Some? ==> (r.value.node2.Some? <==> r.value.channel.node2Pub in fnd.nodeInfoByPubkey)
    ensures r.Some? && r.value.node1.Some? ==>
      r.value.node1.value == fnd.nodeInfoByPubkey[r.value.channel.node1Pub]
    ensures r.Some? && r.value.node2.Some? ==>
      r.value.node2.value == fnd.nodeInfoByPubkey[r.value.channel.node2Pub]
  {
    if channelId !in fnd.channelsById then None
    else
      var channel := fnd.channelsById[channelId];
      Some(ChannelView(channel, Lookup(fnd.nodeInfoByPubkey, channel.node1Pub),
                       Lookup(fnd.nodeInfoByPubkey, channel.node2Pub)))
  }

  /** /node-status: the identity key, then the first advertised URI when there is one. */
  function StatusQrStrings(identityPubkey: string, uris: seq<string>): (r: seq<string>)
    ensures 1 <= |r| <= 2 && r[0] == identityPubkey
    ensures |r| == 2 <==> |uris| > 0
    ensures |uris| > 0 ==> r[1] == uris[0]
  {
    QrStrings(identityPubkey, if |uris| > 0 then Some(uris[0]) else None)
  }

  // ---------------------------------------------------------------------------
  // Search (/search)
  // ---------------------------------------------------------------------------

  /** The flash message a missing query leaves in the session. */
  function EmptySearchMessage(): string { "Enter a public key, alias, address, or channel id." }

  /** What /search does: redirect home, to a node, to a channel, or render the matches. */
  datatype SearchOutcome =
    | MissingQuery
    | NodeRedirect(query: string)
    | ChannelRedirect(query: string)
    | Results(query: string, nodes: seq<NodeInfo>)

  /** The redirect target of an outcome, if it is a redirect. */
  function RedirectTarget(o: SearchOutcome): Option<string> {
    match o
    case MissingQuery => Some("/")
    case NodeRedirect(q) => Some("/node/" + q)
    case ChannelRedirect(q) => Some("/channel/" + q)
    case Results(_, _) => None
  }

  /**
   * `query.toLowerCase().trim()`: the lowercased query with the white space
   * around it cut off. No ASCII capital is left, the result is empty exactly
   * when the query is all white space, and otherwise it starts and ends with
   * a character that is not white space.
   */
  function NormalizeQuery(raw: string): (r: string)
    ensures IsTrimOf(ToLower(raw), r)
    ensures |r| <= |raw|
    ensures NoCapitals(r)
    ensures r == [] <==> AllWhitespace(raw)
    ensures r != [] ==> !IsWhitespace(r[0]) && !IsWhitespace(r[|r| - 1])
  {
    LowerTrimShape(raw);
    TrimIsTrimOf(ToLower(raw));
    Trim(ToLower(raw))
  }

  /** The number of addresses whose `addr` contains the query. */
  function AddressMatches(addresses: seq<NodeAddress>, query: string): nat {
    if addresses == [] then 0
    else
      AddressMatches(addresses[..|addresses| - 1], query)
      + if Contains(addresses[|addresses| - 1].addr, query) then 1 else 0
  }

  /** How many of lowercased alias, lowercased key and colour contain the query. */
  function FieldMatches(n: NodeInfo, query: string): nat {
    (if Contains(ToLower(n.node.alias), query) then 1 else 0)
    + (if Contains(ToLower(n.node.pubKey), query) then 1 else 0)
    + (if Contains(n.node.color, query) then 1 else 0)
  }

  /** How many of the search criteria a node meets: alias, key, colour, and each address. */
  function MatchCount(n: NodeInfo, query: string): nat {
    FieldMatches(n, query) + AddressMatches(n.node.addresses, query)
  }

  function Repeat<T>(x: T, k: nat): (r: seq<T>)
    ensures |r| == k
  {
    if k == 0 then [] else Repeat(x, k - 1) + [x]
  }

  /** The search results: each node, in order, once per criterion it meets. */
  function SearchMatches(ns: seq<NodeInfo>, query: string): seq<NodeInfo> {
    if ns == [] then []
    else
      var last := ns[|ns| - 1];
      SearchMatches(ns[..|ns| - 1], query) + Repeat(last, MatchCount(last, query))
  }

  lemma {:induction false} RepeatCount<T>(x: T, k: nat, y: T)
    ensures multiset(Repeat(x, k))[y] == if x == y then k else 0
  {
    if k > 0 {
      RepeatCount(x, k - 1, y);
    }
  }

  /** A node occurs in the results as often as it occurs in the walk times the criteria it meets. */
  lemma {:induction false} SearchMatchMultiplicity(ns: seq<NodeInfo>, query: string, n: NodeInfo)
    ensures multiset(SearchMatches(ns, query))[n] == multiset(ns)[n] * MatchCount(n, query)
  {
    if ns != [] {
      var init, last := ns[..|ns| - 1], ns[|ns| - 1];
      var c := MatchCount(n, query);
      var k := MatchCount(last, query);
      var b := if last == n then 1 else 0;
      SearchMatchMultiplicity(init, query, n);
      RepeatCount(last, k, n);
      AppendCount(SearchMatches(init, query), Repeat(last, k), n);
      LastCount(ns, n);
      MultiplyOut(multiset(init)[n], b, c);
      assert b * c == if last == n then k else 0;
    } else {
      MultiplyOut(0, 0, MatchCount(n, query));
    }
  }

  lemma LastCount<T>(s: seq<T>, x: T)
    requires s != []
    ensures multiset(s)[x] == multiset(s[..|s| - 1])[x] + if s[|s| - 1] == x then 1 else 0
  {
    assert s == s[..|s| - 1] + [s[|s| - 1]];
  }

  lemma AppendCount<T>(a: seq<T>, b: seq<T>, x: T)
    ensures multiset(a + b)[x] == multiset(a)[x] + multiset(b)[x]
  {
  }

  lemma MultiplyOut(a: nat, b: nat, c: nat)
    ensures (a + b) * c == a * c + b * c
  {
  }

  /** A node is in the results exactly when it is in the walk and meets at least one criterion. */
  lemma SearchMatchesMembership(ns: seq<NodeInfo>, query: string, n: NodeInfo)
    ensures n in SearchMatches(ns, query) <==> n in ns && MatchCount(n, query) > 0
  {
    var found := SearchMatches(ns, query);
    SearchMatchMultiplicity(ns, query, n);
    assert n in found <==> multiset(found)[n] > 0;
    assert n in ns <==> multiset(ns)[n] > 0;
    ProductPositive(multiset(ns)[n], MatchCount(n, query));
  }

  lemma ProductPositive(a: nat, b: nat)
    ensures a * b > 0 <==> a > 0 && b > 0
  {
    if a > 0 && b > 0 {
      assert a * b >= b;
    }
  }

  /** An empty query is contained in every string, so every node meets every criterion. */
  lemma {:induction false} EmptyQueryMatchesAll(n: NodeInfo)
    ensures MatchCount(n, "") == 3 + |n.node.addresses|
  {
    ContainsEmpty(ToLower(n.node.alias));
    ContainsEmpty(ToLower(n.node.pubKey));
    ContainsEmpty(n.node.color);
    EmptyQueryMatchesAllAddresses(n.node.addresses);
  }

  lemma {:induction false} EmptyQueryMatchesAllAddresses(addresses: seq<NodeAddress>)
    ensures AddressMatches(addresses, "") == |addresses|
  {
    if addresses != [] {
      EmptyQueryMatchesAllAddresses(addresses[..|addresses| - 1]);
      ContainsEmpty(addresses[|addresses| - 1].addr);
    }
  }

  /** What /search decides for a raw query parameter. */
  function SearchOutcomeOf(fnd: FullNetworkDescription, rawQuery: Option<string>): (o: SearchOutcome)
    ensures o.MissingQuery? <==> !Given(rawQuery)
    ensures Given(rawQuery) ==> o == QueryOutcome(fnd, NormalizeQuery(rawQuery.value))
  {
    if !Given(rawQuery) then MissingQuery
    else QueryOutcome(fnd, NormalizeQuery(rawQuery.value))
  }

  /** What /search decides for a normalised query. */
  function QueryOutcome(fnd: FullNetworkDescription, query: string): (o: SearchOutcome)
    ensures o.NodeRedirect? <==> query in fnd.nodeInfoByPubkey
    ensures o.ChannelRedirect? <==> query !in fnd.nodeInfoByPubkey && query in fnd.channelsById
    ensures o.Results? <==> query !in fnd.nodeInfoByPubkey && query !in fnd.channelsById
    ensures !o.MissingQuery? && o.query == query
    ensures o.Results? ==> o.nodes == SearchMatches(fnd.nodes.sortedByLastUpdate, query)
  {
    if query in fnd.nodeInfoByPubkey then NodeRedirect(query)
    else if query in fnd.channelsById then ChannelRedirect(query)
    else Results(query, SearchMatches(fnd.nodes.sortedByLastUpdate, query))
  }

  /**
   * Redirect precedence: a missing or empty parameter goes home; otherwise an
   * exact node key wins over an exact channel id, and only a query that is
   * neither lists matches.
   */
  lemma SearchRedirectPrecedence(fnd: FullNetworkDescription, rawQuery: Option<string>)
    ensures var o := SearchOutcomeOf(fnd, rawQuery);
      && (o.MissingQuery? <==> !Given(rawQuery))
      && (o.MissingQuery? ==> RedirectTarget(o) == Some("/"))
      && (Given(rawQuery) && NormalizeQuery(rawQuery.value) in fnd.nodeInfoByPubkey ==>
            RedirectTarget(o) == Some("/node/" + NormalizeQuery(rawQuery.value)))
      && (Given(rawQuery) && NormalizeQuery(rawQuery.value) !in fnd.nodeInfoByPubkey
            && NormalizeQuery(rawQuery.value) in fnd.channelsById ==>
            RedirectTarget(o) == Some("/channel/" + NormalizeQuery(rawQuery.value)))
      && (Given(rawQuery) && NormalizeQuery(rawQuery.value) !in fnd.nodeInfoByPubkey
            && NormalizeQuery(rawQuery.value) !in fnd.channelsById ==>
            o == Results(NormalizeQuery(rawQuery.value),
                         SearchMatches(fnd.nodes.sortedByLastUpdate, NormalizeQuery(rawQuery.value))))

  {
  }

  /**
   * The emptiness check looks at the raw parameter, before trimming: a query
   * of blanks is not sent home but searched as the empty string, which (absent
   * an empty key) lists every node once per criterion.
   */
  lemma BlankQuerySearchesEverything(fnd: FullNetworkDescription, raw: string)
    requires raw != [] && AllWhitespace(raw)
    requires "" !in fnd.nodeInfoByPubkey && "" !in fnd.channelsById
    ensures SearchOutcomeOf(fnd, Some(raw)) == Results("", SearchMatches(fnd.nodes.sortedByLastUpdate, ""))
    ensures forall n :: n in fnd.nodes.sortedByLastUpdate ==>
      multiset(SearchOutcomeOf(fnd, Some(raw)).nodes)[n]
        == multiset(fnd.nodes.sortedByLastUpdate)[n] * (3 + |n.node.addresses|)
  {
    var lowered := ToLower(raw);
    assert AllWhitespace(lowered) by {
      forall i | 0 <= i < |lowered| ensures IsWhitespace(lowered[i]) {
        assert IsWhitespace(raw[i]);
      }
    }
    assert NormalizeQuery(raw) == "";
    forall n | n in fnd.nodes.sortedByLastUpdate
      ensures multiset(SearchOutcomeOf(fnd, Some(raw)).nodes)[n]
        == multiset(fnd.nodes.sortedByLastUpdate)[n] * (3 + |n.node.addresses|)
    {
      SearchMatchMultiplicity(fnd.nodes.sortedByLastUpdate, "", n);
      EmptyQueryMatchesAll(n);
    }
  }

  /** Lines 281-292: push the node once for each of alias, key and colour that contains the query. */
  method PushFieldMatches(found: seq<NodeInfo>, nodeInfo: NodeInfo, query: string) returns (found': seq<NodeInfo>)
    ensures found' == found + Repeat(nodeInfo, FieldMatches(nodeInfo, query))
  {
    found' := found;
    ghost var count := 0;
    if Contains(ToLower(nodeInfo.node.alias), query) {
      found' := found' + [nodeInfo];
      count := count + 1;
    }
    assert found' == found + Repeat(nodeInfo, count);
    if Contains(ToLower(nodeInfo.node.pubKey), query) {
      found' := found' + [nodeInfo];
      count := count + 1;
    }
    assert found' == found + Repeat(nodeInfo, count);
    if Contains(nodeInfo.node.color, query) {
      found' := found' + [nodeInfo];
      count := count + 1;
    }
  }

  /** Lines 293-297: push the node once for each address that contains the query. */
  method PushAddressMatches(found: seq<NodeInfo>, nodeInfo: NodeInfo, query: string)
    returns (found': seq<NodeInfo>)
    ensures found' == found + Repeat(nodeInfo, AddressMatches(nodeInfo.node.addresses, query))
  {
    found' := found;
    var addresses := nodeInfo.node.addresses;
    for j := 0 to |addresses|
      invariant found' == found + Repeat(nodeInfo, AddressMatches(addresses[..j], query))
    {
      AddressMatchesStep(addresses, j, query);
      if Contains(addresses[j].addr, query) {
        found' := found' + [nodeInfo];
      }
    }
    assert addresses[..|addresses|] == addresses;
  }

  /** Lines 281-297: push one node once for each criterion it meets. */
  method PushMatches(found: seq<NodeInfo>, nodeInfo: NodeInfo, query: string) returns (found': seq<NodeInfo>)
    ensures found' == found + Repeat(nodeInfo, MatchCount(nodeInfo, query))
  {
    var withFields := PushFieldMatches(found, nodeInfo, query);
    found' := PushAddressMatches(withFields, nodeInfo, query);
    RepeatAdd(nodeInfo, FieldMatches(nodeInfo, query), AddressMatches(nodeInfo.node.addresses, query));
  }

  lemma {:induction false} RepeatAdd<T>(x: T, a: nat, b: nat)
    ensures Repeat(x, a + b) == Repeat(x, a) + Repeat(x, b)
  {
    if b > 0 {
      RepeatAdd(x, a, b - 1);
    }
  }

  lemma AddressMatchesStep(addresses: seq<NodeAddress>, j: nat, query: string)
    requires j < |addresses|
    ensures AddressMatches(addresses[..j + 1], query)
         == AddressMatches(addresses[..j], query) + if Contains(addresses[j].addr, query) then 1 else 0
  {
    assert addresses[..j + 1][..j] == addresses[..j];
  }

  /** Lines 280-298: the walk over the last-update ordering. */
  method CollectMatches(nodes: seq<NodeInfo>, query: string) returns (found: seq<NodeInfo>)
    ensures found == SearchMatches(nodes, query)
  {
    found := [];
    for i := 0 to |nodes|
      invariant found == SearchMatches(nodes[..i], query)
    {
      assert nodes[..i + 1][..i] == nodes[..i];
      found := PushMatches(found, nodes[i], query);
    }
    assert nodes[..|nodes|] == nodes;
  }

  /** The session after /search: a missing query leaves a message for the next page. */
  function AfterSearch(entries: map<string, Value>, outcome: SearchOutcome): map<string, Value> {
    if outcome.MissingQuery? then entries["userMessage" := Text(EmptySearchMessage())] else entries
  }

  /** The /search handler. */
  method Search(session: Session, fnd: FullNetworkDescription, rawQuery: Option<string>)
    returns (outcome: SearchOutcome)
    modifies session
    ensures outcome == SearchOutcomeOf(fnd, rawQuery)
    ensures session.entries == AfterSearch(old(session.entries), outcome)
  {
    if !Given(rawQuery) {
      session.entries := session.entries["userMessage" := Text(EmptySearchMessage())];
      return MissingQuery;
    }
    outcome := SearchQuery(fnd, NormalizeQuery(rawQuery.value));
  }

  /** Lines 262-298: the exact-hit redirects, node key first, then the match walk. */
  method SearchQuery(fnd: FullNetworkDescription, query: string) returns (outcome: SearchOutcome)
    ensures outcome == QueryOutcome(fnd, query)
  {
    if query in fnd.nodeInfoByPubkey {
      return NodeRedirect(query);
    }
    if query in fnd.channelsById {
      return ChannelRedirect(query);
    }
    var nodes := CollectMatches(fnd.nodes.sortedByLastUpdate, query);
    outcome := Results(query, nodes);
  }

  /**
   * The message a missing query leaves is shown by the next request that the
   * middleware hands on, as a warning unless a type is pending, and the
   * request after that shows no message.
   */
  lemma MissingQueryMessageShownOnce(entries: map<string, Value>, rpc: Option<App.RpcCredentials>,
                                     cookies: map<string, string>, originalUrl: string, connectRedirect: bool)
    requires App.SkipsConnectCheck(originalUrl) || !connectRedirect
    ensures var st := App.Middleware(AfterSearch(entries, MissingQuery), rpc, cookies, originalUrl, connectRedirect).state;
      && "userMessage" in st.locals && st.locals["userMessage"] == Text(EmptySearchMessage())
      && "userMessageType" in st.locals && st.locals["userMessageType"] ==
           (if Truthy(entries, "userMessageType") then entries["userMessageType"] else Text("warning"))
      && !Truthy(st.session, "userMessage")
  {
    var after := AfterSearch(entries, MissingQuery);
    assert after == entries["userMessage" := Text(EmptySearchMessage())];
    assert Truthy(after, "userMessage");
    assert Truthy(after, "userMessageType") == Truthy(entries, "userMessageType");
    App.MessageHandedOver(after, rpc, cookies, originalUrl, connectRedirect);
  }

  // ---------------------------------------------------------------------------
  // Settings switch (/changeSetting)
  // ---------------------------------------------------------------------------

  /** `res.cookie(name, value)`: the cookie stores the value as text. */
  datatype SetCookie = SetCookie(name: string, value: string)

  /** `String(value)`: an absent parameter is stored as the text "undefined". */
  function CookieText(value: Option<string>): (r: string)
    ensures value.Some? ==> r == value.value
    ensures value.None? ==> r == "undefined"
  {
    match value
    case Some(v) => v
    case None => "undefined"
  }

  /** The session after /changeSetting: the named property takes the value (absent value: `undefined`). */
  function ApplySetting(entries: map<string, Value>, name: Option<string>, value: Option<string>)
    : (r: map<string, Value>)
    ensures !Given(name) ==> r == entries
    ensures Given(name) && value.Some? ==> name.value in r && r[name.value] == Text(value.value)
    ensures Given(name) && value.None? ==> name.value !in r
    ensures Given(name) ==> forall k :: k != name.value ==>
      (k in r <==> k in entries) && (k in entries ==> r[k] == entries[k])
  {
    if !Given(name) then entries
    else match value
      case Some(v) => entries[name.value := Text(v)]
      case None => entries - {name.value}
  }

  /**
   * The /changeSetting handler: when a name is given, store the value in the
   * session and in the matching `user-setting-` cookie; always redirect back
   * to the referring page.
   */
  method ChangeSetting(session: Session, name: Option<string>, value: Option<string>, referer: Option<string>)
    returns (cookie: Option<SetCookie>, redirectTo: Option<string>)
    modifies session
    ensures session.entries == ApplySetting(old(session.entries), name, value)
    ensures Given(name) <==> cookie.Some?
    ensures cookie.Some? ==> cookie.value == SetCookie(SettingCookie(name.value), CookieText(value))
    ensures redirectTo == referer
  {
    cookie := None;
    if Given(name) {
      match value {
        case Some(v) => session.entries := session.entries[name.value := Text(v)];
        case None => session.entries := session.entries - {name.value};
      }
      cookie := Some(SetCookie(SettingCookie(name.value), CookieText(value)));
    }
    redirectTo := referer;
  }

  /** A setting switched to a non-empty value survives the next request's defaults. */
  lemma ChangedSettingKept(entries: map<string, Value>, s: App.Setting, v: string,
                           rpc: Option<App.RpcCredentials>, cookies: map<string, string>,
                           originalUrl: string, connectRedirect: bool)
    requires v != ""
    ensures var after := ApplySetting(entries, Some(s.Key()), Some(v));
      App.Middleware(after, rpc, cookies, originalUrl, connectRedirect).state.session[s.Key()] == Text(v)
  {
    var after := ApplySetting(entries, Some(s.Key()), Some(v));
    assert after[s.Key()] == Text(v);
    App.SettingAfterMiddleware(after, rpc, cookies, originalUrl, connectRedirect, s);
  }

  /**
   * The cookie /changeSetting writes is the one the middleware reads: a
   * session that has lost the setting gets it back from that cookie.
   */
  lemma SettingCookieRestoresSetting(entries: map<string, Value>, s: App.Setting, v: string,
                                     rpc: Option<App.RpcCredentials>, cookies: map<string, string>,
                                     originalUrl: string, connectRedirect: bool)
    requires v != "" && !Truthy(entries, s.Key())
    ensures var c := SetCookie(SettingCookie(s.Key()), CookieText(Some(v)));
      App.Middleware(entries, rpc, cookies[c.name := c.value], originalUrl, connectRedirect)
        .state.session[s.Key()] == Text(v)
  {
    var cookies' := cookies[SettingCookie(s.Key()) := v];
    assert App.CookieTruthy(cookies', SettingCookie(s.Key()));
    App.SettingAfterMiddleware(entries, rpc, cookies', originalUrl, connectRedirect, s);
  }

  /**
   * Switching a setting without a value removes it from the session but
   * writes the cookie text "undefined", which is truthy: the next request
   * restores the setting as the text "undefined", not as its default.
   */
  lemma ValuelessSwitchStoresUndefined(entries: map<string, Value>, s: App.Setting,
                                       rpc: Option<App.RpcCredentials>, cookies: map<string, string>,
                                       originalUrl: string, connectRedirect: bool)
    ensures var after := ApplySetting(entries, Some(s.Key()), None);
      var c := SetCookie(SettingCookie(s.Key()), CookieText(None));
      App.Middleware(after, rpc, cookies[c.name := c.value], originalUrl, connectRedirect)
        .state.session[s.Key()] == Text("undefined")
  {
    var after := ApplySetting(entries, Some(s.Key()), None);
    var cookies' := cookies[SettingCookie(s.Key()) := "undefined"];
    assert !Truthy(after, s.Key());
    assert App.CookieTruthy(cookies', SettingCookie(s.Key()));
    App.SettingAfterMiddleware(after, rpc, cookies', originalUrl, connectRedirect, s);
  }
}
