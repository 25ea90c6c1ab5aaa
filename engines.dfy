/** The catalogue of mock proof engines the backend offers. */
module Engines {

  datatype EngineInfo = EngineInfo(
    name: string,
    proofSize: string,
    verificationTime: string,
    setup: string,
    bestFor: string)

  /** The four mock proof engines, keyed by the name a request may ask for. */
  const ZkpEngines: map<string, EngineInfo> := map[
    "groth16" := EngineInfo("Groth16", "128 bytes", "~2ms", "Trusted setup required", "Small circuits, fast verification"),
    "plonk" := EngineInfo("PLONK", "384 bytes", "~5ms", "Universal trusted setup", "Medium circuits, updateable"),
    "stark" := EngineInfo("STARK", "~100KB", "~50ms", "Transparent (no trusted setup)", "Large circuits, post-quantum"),
    "bulletproofs" := EngineInfo("Bulletproofs", "~1.3KB", "~100ms", "No trusted setup", "Range proofs, confidential transactions")
  ]

  datatype EngineListing = EngineListing(engines: map<string, EngineInfo>, total: nat)

  /** GET /engines: the whole catalogue and its size. */
  function ListEngines(): (r: EngineListing)
    ensures r.engines.Keys == {"groth16", "plonk", "stark", "bulletproofs"}
    ensures r.total == 4
  {
    EngineListing(ZkpEngines, |ZkpEngines|)
  }
}
