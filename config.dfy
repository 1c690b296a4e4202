/** The configuration records of pm4/types.py, as plain parameters of the
    model, with the defaults the dataclasses declare. */
module Config {

  datatype WarmupConfig = WarmupConfig(
    dtSampleS: real,
    minReturnSamples: int,
    maxWarmupS: real,
    tauFastS: real,
    tauSlowS: real,
    markoutH1S: real,
    markoutH2S: real,
    markoutW1: real,
    markoutW2: real)

  datatype RiskConfig = RiskConfig(
    bankrollB: real,
    nPlays: int,
    etaTime: real,
    slippageBuffer: real,
    gammaA: real,
    gammaMax: real,
    lambdaMin: real,
    lambdaMax: real,
    betaP: real,
    alphaU: real,
    uRef: real,
    wA: real,
    wL: real,
    sScale: real,
    iMax: real,
    cTox: real,
    cSigma: real,
    nuSigma: real,
    sigmaMax: real,
    sigmaTauUpS: real,
    sigmaTauDownS: real)

  datatype QuoteConfig = QuoteConfig(
    cRisk: real,
    kappa0: real,
    rateRefPerS: real,
    minHalfSpreadProb: real,
    maxHalfSpreadLogit: real,
    ladderDecay: real,
    ladderStepMult: real,
    ladderMinStepLogit: real,
    ladderMaxLevels: int,
    minOrderSize: real,
    maxOrderNotionalSide: real,
    refreshS: real,
    priceMoveRequoteTicks: int)

  datatype MarketConfig = MarketConfig(
    market: string,
    assetIdYes: string,
    assetIdNo: string,
    startTsMs: int,
    resolveTsMs: int)

  datatype BotConfig = BotConfig(
    market: MarketConfig,
    warmup: WarmupConfig,
    risk: RiskConfig,
    quote: QuoteConfig)

  const DefaultWarmup := WarmupConfig(5.0, 360, 7200.0, 30.0, 1800.0, 10.0, 60.0, 0.6, 0.4)

  const DefaultRisk := RiskConfig(
    50.0, 3, 0.5, 0.10, 1.0, 50.0, 0.8, 2.0, 0.7, 0.5, 50.0,
    1.0, 1.0, 1.0, 3.0, 1.0, 1.0, 1.4, 6.0, 10.0, 90.0)

  const DefaultQuote := QuoteConfig(
    0.2, 1.0, 0.05, 0.01, 1.5, 0.8, 0.5, 0.05, 5, 1.0, 100.0, 2.0, 1)
}
