/** app/ante/ante.go: the ante handler's routing decision. A transaction is
    sent to the Ethereum pipeline, to the EIP-712 Cosmos pipeline or to the
    plain Cosmos pipeline, or is rejected; the chosen pipeline is then run
    and its result returned as it is. */
module Ante {
  import opened Common

  /** An extension option packed in an `Any`: only its type URL matters. */
  datatype ExtensionOption = ExtensionOption(typeUrl: string)

  /** An `sdk.Tx` value as the router sees it: `NilTx` is the nil interface;
      `extensions == None` is a transaction that does not implement
      `HasExtensionOptionsTx`. */
  datatype Tx = NilTx | Tx(extensions: Option<seq<ExtensionOption>>)

  datatype Pipeline = EthPipeline | Eip712CosmosPipeline | CosmosPipeline

  const EthereumTxExtension: string := "/ethermint.evm.v1.ExtensionOptionsEthereumTx"
  const Web3TxExtension: string := "/ethermint.types.v1.ExtensionOptionsWeb3Tx"

  /** The first extension option's type URL, when the transaction has one. */
  function FirstTypeUrl(tx: Tx): (r: Option<string>)
    ensures r.Some? <==> tx.Tx? && tx.extensions.Some? && |tx.extensions.value| > 0
    ensures r.Some? ==> r.value == tx.extensions.value[0].typeUrl
  {
    if tx.Tx? && tx.extensions.Some? && |tx.extensions.value| > 0 then Some(tx.extensions.value[0].typeUrl)
    else None
  }

  /** The routing decision of `NewAnteHandler`. */
  function Route(tx: Tx): (r: Result<Pipeline>)
    ensures r == Ok(EthPipeline) <==> FirstTypeUrl(tx) == Some(EthereumTxExtension)
    ensures r == Ok(Eip712CosmosPipeline) <==> FirstTypeUrl(tx) == Some(Web3TxExtension)
    ensures r == Ok(CosmosPipeline) <==> tx.Tx? && FirstTypeUrl(tx).None?
    ensures r.Err? && r.error.code == UnknownExtensionOptions <==>
      FirstTypeUrl(tx).Some? && FirstTypeUrl(tx).value != EthereumTxExtension && FirstTypeUrl(tx).value != Web3TxExtension
    ensures r.Err? && r.error.code == UnknownRequest <==> tx.NilTx?
  {
    match tx
    case NilTx => Err(Wrapped(UnknownRequest, "invalid transaction type: <nil>"))
    case Tx(extensions) =>
      if extensions.Some? && |extensions.value| > 0 then
        var typeUrl := extensions.value[0].typeUrl;
        if typeUrl == EthereumTxExtension then Ok(EthPipeline)
        else if typeUrl == Web3TxExtension then Ok(Eip712CosmosPipeline)
        else Err(Wrapped(UnknownExtensionOptions, "rejecting tx with unsupported extension option: " + typeUrl))
      else Ok(CosmosPipeline)
  }

  /** What an ante handler returns: the new context and an error, if any. */
  datatype AnteResult<C> = AnteResult(newCtx: C, err: Option<Error>)

  /** The handler `NewAnteHandler` builds: `run` stands for the three
      pipelines (built from the handler options), called only for the
      pipeline the router chose. A rejection returns the incoming context. */
  function AnteHandle<C>(run: (Pipeline, C, Tx, bool) -> AnteResult<C>, ctx: C, tx: Tx, sim: bool): (r: AnteResult<C>)
    ensures Route(tx).Ok? ==> r == run(Route(tx).value, ctx, tx, sim)
    ensures Route(tx).Err? ==> r == AnteResult(ctx, Some(Route(tx).error))
  {
    match Route(tx)
    case Ok(p) => run(p, ctx, tx, sim)
    case Err(e) => AnteResult(ctx, Some(e))
  }

  /** A rejected extension option is named in the error. */
  lemma UnknownExtensionNamed(tx: Tx)
    requires FirstTypeUrl(tx).Some?
    requires FirstTypeUrl(tx).value != EthereumTxExtension && FirstTypeUrl(tx).value != Web3TxExtension
    ensures Route(tx) == Err(Wrapped(UnknownExtensionOptions,
                                     "rejecting tx with unsupported extension option: " + FirstTypeUrl(tx).value))
  {
  }

  /** Only the first extension option is looked at. */
  lemma OnlyFirstOptionMatters(first: ExtensionOption, rest: seq<ExtensionOption>, rest': seq<ExtensionOption>)
    ensures Route(Tx(Some([first] + rest))) == Route(Tx(Some([first] + rest')))
  {
  }

  /** A transaction without options and one not carrying options at all go
      the same way: to the plain Cosmos pipeline. */
  lemma NoOptionsIsPlainCosmos()
    ensures Route(Tx(Some([]))) == Route(Tx(None)) == Ok(CosmosPipeline)
  {
  }

  /** When a transaction is rejected no pipeline runs: the result is the
      same whatever the pipelines would have done. */
  lemma RejectionRunsNoPipeline<C>(run: (Pipeline, C, Tx, bool) -> AnteResult<C>,
                                   run': (Pipeline, C, Tx, bool) -> AnteResult<C>, ctx: C, tx: Tx, sim: bool)
    requires Route(tx).Err?
    ensures AnteHandle(run, ctx, tx, sim) == AnteHandle(run', ctx, tx, sim)
    ensures AnteHandle(run, ctx, tx, sim).newCtx == ctx
  {
  }

  /** Only the chosen pipeline matters: two pipeline sets that agree on it
      give the same result. */
  lemma OnlyChosenPipelineRuns<C>(run: (Pipeline, C, Tx, bool) -> AnteResult<C>,
                                  run': (Pipeline, C, Tx, bool) -> AnteResult<C>, ctx: C, tx: Tx, sim: bool)
    requires Route(tx).Ok?
    requires run(Route(tx).value, ctx, tx, sim) == run'(Route(tx).value, ctx, tx, sim)
    ensures AnteHandle(run, ctx, tx, sim) == AnteHandle(run', ctx, tx, sim)
  {
  }

  /** Transactions with the same first type URL are routed alike. */
  lemma SameTagSameRoute(tx: Tx, tx': Tx)
    requires tx.Tx? && tx'.Tx?
    requires FirstTypeUrl(tx) == FirstTypeUrl(tx')
    ensures Route(tx) == Route(tx')
  {
  }
}
