/** The ledger query adapter: the shapes of the two upstream replies (the
    Arweave GraphQL endpoint and the REST transaction history), the one
    transfer record both are normalised into, and the choice between them
    made by `getAddressTransactions`. The network calls themselves are not
    modelled: their outcomes are the parameters of these functions. */
module Ledger {
  import opened Wrappers

  /** Winston (the ledger's smallest unit) per AR. */
  const WinstonPerAr: real := 1000000000000.0

  /** A transfer in the normalised shape. `quantity` is in winston; `None`
      stands for `undefined` or NaN. `id` and `owner` are `None` when the
      upstream object lacked them. */
  datatype TxRecord = TxRecord(
    id: Option<string>,
    owner: Option<string>,
    target: string,
    quantity: Option<real>,
    block: Option<int>,
    timestamp: Option<int>)

  // ---- GraphQL reply -------------------------------------------------------

  datatype GqlBlock = GqlBlock(height: Option<int>, timestamp: Option<int>)
  datatype GqlOwner = GqlOwner(address: Option<string>)
  /** `ar` is the decimal AR amount; `None` when it is absent or not numeric. */
  datatype GqlAmount = GqlAmount(ar: Option<real>)
  datatype GqlNode = GqlNode(
    id: Option<string>,
    owner: Option<GqlOwner>,
    quantity: Option<GqlAmount>,
    block: Option<GqlBlock>)
  datatype GqlEdge = GqlEdge(node: Option<GqlNode>)
  datatype GqlTransactions = GqlTransactions(edges: Option<seq<GqlEdge>>)
  datatype GqlData = GqlData(transactions: Option<GqlTransactions>)

  /** What the POST to the GraphQL endpoint produced: no reply at all (network
      error, timeout, non-2xx status), or a body whose `errors` field is
      truthy or not and whose `data` field may be missing. */
  datatype GqlResponse =
    | GqlUnreachable
    | GqlBody(errors: bool, data: Option<GqlData>)

  // ---- REST reply ----------------------------------------------------------

  datatype RestTx = RestTx(
    txid: Option<string>,
    owner: Option<string>,
    target: Option<string>,
    quantity: Option<real>,
    blockHeight: Option<int>,
    blockTimestamp: Option<int>)

  datatype RestBody = RestArray(items: seq<RestTx>) | RestNotArray

  /** What the GET of the transaction history produced: an exception, or a
      body that is a JSON array or something else. */
  datatype RestReply = RestUnreachable | RestOk(body: RestBody)

  // ---- arweaveGraphQL ------------------------------------------------------

  /** `arweaveGraphQL`: the reply's `data`, or null (`None`) when the request
      failed or the reply carries errors. */
  function GraphQLData(response: GqlResponse): (data: Option<GqlData>)
    ensures data.Some? <==> response.GqlBody? && !response.errors && response.data.Some?
    ensures data.Some? ==> response.data == data
  {
    match response
    case GqlUnreachable => None
    case GqlBody(errors, d) => if errors then None else d
  }

  /** `graphqlData?.transactions?.edges`: present exactly when every link of
      the chain is; an empty list still counts as present. */
  function GraphQLEdges(data: Option<GqlData>): (edges: Option<seq<GqlEdge>>)
    ensures edges.Some? <==>
      data.Some? && data.value.transactions.Some? && data.value.transactions.value.edges.Some?
    ensures edges.Some? ==> edges == data.value.transactions.value.edges
  {
    if data.Some? && data.value.transactions.Some? then data.value.transactions.value.edges
    else None
  }

  // ---- normalisation -------------------------------------------------------

  /** An edge the GraphQL mapping can read without a TypeError: it
      dereferences `node`, `node.owner` and `node.quantity` directly, and
      `node.block` only through optional chaining. */
  predicate EdgeReadable(edge: GqlEdge)
  {
    edge.node.Some? && edge.node.value.owner.Some? && edge.node.value.quantity.Some?
  }

  /** One GraphQL edge as a record; `None` when reading it throws. */
  function FromEdge(address: string, edge: GqlEdge): (r: Option<TxRecord>)
    ensures r.Some? <==> EdgeReadable(edge)
    ensures r.Some? ==>
      var node := edge.node.value;
      && r.value.id == node.id
      && r.value.owner == node.owner.value.address
      && r.value.target == address
      && (r.value.quantity.Some? <==> node.quantity.value.ar.Some?)
      && (node.quantity.value.ar.Some? ==>
            r.value.quantity.value == node.quantity.value.ar.value * WinstonPerAr)
      && (node.block.None? ==> r.value.block.None? && r.value.timestamp.None?)
      && (node.block.Some? ==>
            r.value.block == node.block.value.height && r.value.timestamp == node.block.value.timestamp)
  {
    match edge.node
    case None => None
    case Some(node) =>
      if node.owner.None? || node.quantity.None? then None
      else
        var ar := node.quantity.value.ar;
        Some(TxRecord(
          node.id,
          node.owner.value.address,
          address,
          if ar.Some? then Some(ar.value * WinstonPerAr) else None,
          if node.block.Some? then node.block.value.height else None,
          if node.block.Some? then node.block.value.timestamp else None))
  }

  /** `edges.map(...)`: every edge as a record whose target is forced to the
      monitored address, or `None` when any edge throws. */
  function NormaliseEdges(address: string, edges: seq<GqlEdge>): (r: Option<seq<TxRecord>>)
    ensures r.Some? <==> forall i :: 0 <= i < |edges| ==> EdgeReadable(edges[i])
    ensures r.Some? ==> |r.value| == |edges|
    ensures r.Some? ==> forall i :: 0 <= i < |edges| ==> FromEdge(address, edges[i]) == Some(r.value[i])
    decreases |edges|
  {
    if edges == [] then Some([])
    else
      match FromEdge(address, edges[0])
      case None => None
      case Some(first) =>
        match NormaliseEdges(address, edges[1..])
        case None => None
        case Some(rest) => Some([first] + rest)
  }

  /** One REST history item as a record: `target || ''`. */
  function FromRest(tx: RestTx): (r: TxRecord)
    ensures r.id == tx.txid && r.owner == tx.owner && r.quantity == tx.quantity
    ensures r.block == tx.blockHeight && r.timestamp == tx.blockTimestamp
    ensures r.target == "" <==> tx.target.None? || tx.target.value == ""
    ensures r.target != "" ==> tx.target == Some(r.target)
  {
    TxRecord(tx.txid, tx.owner, tx.target.GetOr(""), tx.quantity, tx.blockHeight, tx.blockTimestamp)
  }

  // ---- getAddressTransactions ----------------------------------------------

  /** `getAddressTransactions(address)` given what each upstream produced.
      GraphQL edges, even none, win and REST is not consulted; a failure
      while mapping them yields `[]` (the outer catch), not the fallback.
      Without edges a REST array is mapped item by item; anything else
      yields `[]`. */
  function FetchTransactions(address: string, graphql: GqlResponse, rest: RestReply): (txs: seq<TxRecord>)
    ensures GraphQLEdges(GraphQLData(graphql)).Some? ==>
      var edges := GraphQLEdges(GraphQLData(graphql)).value;
      && (forall i :: 0 <= i < |txs| ==> txs[i].target == address)
      && (txs == [] || |txs| == |edges|)
      && ((forall i :: 0 <= i < |edges| ==> EdgeReadable(edges[i])) <==> |txs| == |edges|)
      && (NormaliseEdges(address, edges).Some? ==> txs == NormaliseEdges(address, edges).value)
      && (NormaliseEdges(address, edges).None? ==> txs == [])
    ensures GraphQLEdges(GraphQLData(graphql)).None? && rest.RestOk? && rest.body.RestArray? ==>
      var items := rest.body.items;
      && |txs| == |items|
      && forall i :: 0 <= i < |items| ==> txs[i] == FromRest(items[i])
    ensures GraphQLEdges(GraphQLData(graphql)).None? && !(rest.RestOk? && rest.body.RestArray?) ==>
      txs == []
  {
    match GraphQLEdges(GraphQLData(graphql))
    case Some(edges) => NormaliseEdges(address, edges).GetOr([])
    case None =>
      if rest.RestOk? && rest.body.RestArray? then
        var items := rest.body.items;
        seq(|items|, i requires 0 <= i < |items| => FromRest(items[i]))
      else []
  }

  /** When GraphQL returns edges the REST reply has no influence at all. */
  lemma RestIgnoredWhenEdgesPresent(address: string, graphql: GqlResponse, rest1: RestReply, rest2: RestReply)
    requires GraphQLEdges(GraphQLData(graphql)).Some?
    ensures FetchTransactions(address, graphql, rest1) == FetchTransactions(address, graphql, rest2)
  {
  }
}
