/**
 * The ZKP-Studio backend: the engine catalogue, the keyword classifier that
 * estimates a policy's circuit, the generated circuit text, and the request
 * handlers over the two in-memory stores `circuitsDb` and `proofsDb`.
 *
 * Hashes, the wall clock and timestamps are not computed here: the handlers
 * take the identifiers, digests, timestamps and measured times as parameters.
 */
module Backend {
  import opened Wrappers
  import opened Engines
  import opened Policy
  import opened Circuit

  // ---------------------------------------------------------------------------
  // Requests, stored records, responses
  // ---------------------------------------------------------------------------

  datatype PolicyRequest = PolicyRequest(policyText: string, domain: string)

  /** A proof request; its witness data only feeds the digest and is not modelled. */
  datatype ProofRequest = ProofRequest(circuitId: string, engine: string)

  datatype CircuitRecord = CircuitRecord(
    circuitId: string,
    policyText: string,
    compiledCircuit: CircuitCode,
    recommendedEngine: string,
    entropyBudget: real,  // bytes
    constraints: nat,
    timestamp: string)

  datatype ProofRecord = ProofRecord(
    proofId: string,
    circuitId: string,
    engineUsed: string,
    proofData: string,
    verificationKey: string,
    entropyConsumed: real,
    generationTimeMs: real,
    status: string)

  datatype Verification = Verification(
    proofId: string,
    valid: bool,
    verificationTimeMs: real,
    engine: string,
    verifiedAt: string)

  datatype Stats = Stats(
    circuitsCompiled: nat,
    proofsGenerated: nat,
    enginesAvailable: nat,
    uptimeStatus: string)

  datatype HttpError = HttpError(statusCode: nat, detail: string)

  /**
   * `record` is what a compile request for `policyText` produces: the analysis
   * decides the circuit, the engine and the constraint count, and the entropy
   * requirement is converted from bits to bytes.
   */
  predicate CompiledFor(record: CircuitRecord, policyText: string, circuitId: string, timestamp: string)
  {
    var a := AnalyzePolicyComplexity(policyText);
    && record.circuitId == circuitId
    && record.policyText == policyText
    && GeneratedFor(record.compiledCircuit, policyText, a)
    && record.recommendedEngine == a.recommendedEngine
    && record.entropyBudget == a.entropyRequired as real / 8.0
    && record.constraints == a.constraints
    && record.timestamp == timestamp
  }

  /**
   * What a compiled record carries in every case: a catalogued engine, an
   * entropy budget of 16, 24 or 32 bytes that is exactly the analysis's bit
   * count over eight, and one, three or five constraint lines, one per hundred
   * constraints.
   */
  lemma CompiledRecordFacts(record: CircuitRecord, policyText: string, circuitId: string, timestamp: string)
    requires CompiledFor(record, policyText, circuitId, timestamp)
    ensures record.recommendedEngine in ZkpEngines
    ensures record.entropyBudget * 8.0 == AnalyzePolicyComplexity(policyText).entropyRequired as real
    ensures record.entropyBudget in {16.0, 24.0, 32.0}
    ensures |record.compiledCircuit.constraintLines| in {1, 3, 5}
    ensures |record.compiledCircuit.constraintLines| * 100 <= record.constraints
  {
  }

  /** The engine a proof request runs on: the circuit's recommendation for "auto", else the one asked for. */
  function SelectedEngine(request: ProofRequest, circuit: CircuitRecord): (engine: string)
    ensures request.engine == "auto" ==> engine == circuit.recommendedEngine
    ensures request.engine != "auto" ==> engine == request.engine
    ensures engine == "auto" ==> circuit.recommendedEngine == "auto"
  {
    if request.engine != "auto" then request.engine else circuit.recommendedEngine
  }

  // ---------------------------------------------------------------------------
  // The two stores and the handlers over them
  // ---------------------------------------------------------------------------

  /**
   * Every record sits under its own id, every circuit recommends a catalogued
   * engine, and every proof is "valid", ran on a catalogued engine and refers
   * to a stored circuit.
   */
  ghost predicate StoresConsistent(circuits: map<string, CircuitRecord>, proofs: map<string, ProofRecord>)
  {
    && (forall id :: id in circuits ==>
          circuits[id].circuitId == id && circuits[id].recommendedEngine in ZkpEngines)
    && (forall id :: id in proofs ==>
          && proofs[id].proofId == id
          && proofs[id].circuitId in circuits
          && proofs[id].engineUsed in ZkpEngines
          && proofs[id].status == "valid")
  }

  lemma InsertCircuitKeepsConsistency(
    circuits: map<string, CircuitRecord>, proofs: map<string, ProofRecord>, record: CircuitRecord)
    requires record.recommendedEngine in ZkpEngines
    ensures StoresConsistent(circuits, proofs) ==> StoresConsistent(circuits[record.circuitId := record], proofs)
  {
  }

  lemma InsertProofKeepsConsistency(
    circuits: map<string, CircuitRecord>, proofs: map<string, ProofRecord>, record: ProofRecord)
    requires record.circuitId in circuits && record.engineUsed in ZkpEngines && record.status == "valid"
    ensures StoresConsistent(circuits, proofs) ==> StoresConsistent(circuits, proofs[record.proofId := record])
  {
  }

  class Store {
    var circuitsDb: map<string, CircuitRecord>
    var proofsDb: map<string, ProofRecord>

    /** The handlers keep the two stores consistent with each other. */
    ghost predicate Valid()
      reads this
    {
      StoresConsistent(circuitsDb, proofsDb)
    }

    constructor ()
      ensures Valid()
      ensures circuitsDb == map[] && proofsDb == map[]
    {
      circuitsDb := map[];
      proofsDb := map[];
    }

    /**
     * POST /compile. `circuitId` stands for the first sixteen hex digits of the
     * hash of the policy and the clock; the handler has no failing path.
     */
    method CompilePolicy(request: PolicyRequest, circuitId: string, timestamp: string)
      returns (response: CircuitRecord)
      requires |circuitId| == 16
      modifies this
      ensures CompiledFor(response, request.policyText, circuitId, timestamp)
      ensures circuitsDb == old(circuitsDb)[circuitId := response]
      ensures proofsDb == old(proofsDb)
      ensures circuitId !in old(circuitsDb) ==> |circuitsDb| == |old(circuitsDb)| + 1
      ensures old(circuitsDb).Keys <= circuitsDb.Keys && |old(circuitsDb)| <= |circuitsDb|
      ensures old(Valid()) ==> Valid()
    {
      var analysis := AnalyzePolicyComplexity(request.policyText);
      var circuitCode := CompilePolicyToCircuit(request.policyText, analysis);
      response := CircuitRecord(
        circuitId, request.policyText, circuitCode, analysis.recommendedEngine,
        analysis.entropyRequired as real / 8.0, analysis.constraints, timestamp);
      InsertCircuitKeepsConsistency(circuitsDb, proofsDb, response);
      circuitsDb := circuitsDb[circuitId := response];
    }

    /**
     * POST /prove. `proofData`, `verificationKey` and `proofId` stand for the
     * digests the handler computes, `generationTimeMs` for the measured time.
     */
    method GenerateProof(
      request: ProofRequest, proofData: string, verificationKey: string,
      generationTimeMs: real, proofId: string)
      returns (r: Result<ProofRecord, HttpError>)
      requires |proofId| == 16
      modifies this
      ensures circuitsDb == old(circuitsDb)
      ensures request.circuitId !in circuitsDb ==>
        r == Err(HttpError(404, "Circuit not found")) && proofsDb == old(proofsDb)
      ensures request.circuitId in circuitsDb ==>
        var circuit := circuitsDb[request.circuitId];
        var engine := SelectedEngine(request, circuit);
        && (engine !in ZkpEngines ==>
              r == Err(HttpError(400, "Unknown engine: " + engine)) && proofsDb == old(proofsDb))
        && (engine in ZkpEngines ==>
              && r == Ok(ProofRecord(proofId, request.circuitId, engine, proofData, verificationKey,
                                     circuit.entropyBudget * 0.95, generationTimeMs, "valid"))
              && proofsDb == old(proofsDb)[proofId := r.value])
      ensures r.Err? ==> proofsDb == old(proofsDb)
      ensures r.Ok? ==> r.value.engineUsed in ZkpEngines && r.value.status == "valid"
      ensures old(Valid()) && request.engine == "auto" && request.circuitId in circuitsDb ==> r.Ok?
      ensures old(proofsDb).Keys <= proofsDb.Keys && |old(proofsDb)| <= |proofsDb|
      ensures old(Valid()) ==> Valid()
    {
      if request.circuitId !in circuitsDb {
        return Err(HttpError(404, "Circuit not found"));
      }
      var circuit := circuitsDb[request.circuitId];
      var engine := SelectedEngine(request, circuit);
      if engine !in ZkpEngines {
        return Err(HttpError(400, "Unknown engine: " + engine));
      }
      var entropyConsumed := circuit.entropyBudget * 0.95;
      var response := ProofRecord(
        proofId, request.circuitId, engine, proofData, verificationKey,
        entropyConsumed, generationTimeMs, "valid");
      InsertProofKeepsConsistency(circuitsDb, proofsDb, response);
      proofsDb := proofsDb[proofId := response];
      r := Ok(response);
    }

    /** POST /verify/{proof_id}: every stored proof verifies; nothing is stored. */
    function VerifyProof(proofId: string, verifiedAt: string): (r: Result<Verification, HttpError>)
      reads this
      ensures r.Ok? <==> proofId in proofsDb
      ensures r.Err? ==> r.error == HttpError(404, "Proof not found")
      ensures r.Ok? ==>
        && r.value.proofId == proofId
        && r.value.valid
        && r.value.engine == proofsDb[proofId].engineUsed
        && r.value.verificationTimeMs == 2.5
        && r.value.verifiedAt == verifiedAt
      ensures Valid() && r.Ok? ==> r.value.engine in ZkpEngines
    {
      if proofId !in proofsDb then Err(HttpError(404, "Proof not found"))
      else Ok(Verification(proofId, true, 2.5, proofsDb[proofId].engineUsed, verifiedAt))
    }

    /** GET /circuits/{circuit_id}. */
    function GetCircuit(circuitId: string): (r: Result<CircuitRecord, HttpError>)
      reads this
      ensures r.Ok? <==> circuitId in circuitsDb
      ensures r.Ok? ==> r.value == circuitsDb[circuitId]
      ensures r.Err? ==> r.error == HttpError(404, "Circuit not found")
      ensures Valid() && r.Ok? ==> r.value.circuitId == circuitId
    {
      if circuitId !in circuitsDb then Err(HttpError(404, "Circuit not found")) else Ok(circuitsDb[circuitId])
    }

    /** GET /proofs/{proof_id}. */
    function GetProof(proofId: string): (r: Result<ProofRecord, HttpError>)
      reads this
      ensures r.Ok? <==> proofId in proofsDb
      ensures r.Ok? ==> r.value == proofsDb[proofId]
      ensures r.Err? ==> r.error == HttpError(404, "Proof not found")
      ensures Valid() && r.Ok? ==> r.value.proofId == proofId && r.value.circuitId in circuitsDb
    {
      if proofId !in proofsDb then Err(HttpError(404, "Proof not found")) else Ok(proofsDb[proofId])
    }

    /** GET /stats: the sizes of the two stores and of the catalogue. */
    function GetStats(): (r: Stats)
      reads this
      ensures r.circuitsCompiled == |circuitsDb| && r.proofsGenerated == |proofsDb|
      ensures r.enginesAvailable == 4
      ensures r.uptimeStatus == "operational"
    {
      Stats(|circuitsDb|, |proofsDb|, |ZkpEngines|, "operational")
    }

    /** Proofs refer to stored circuits, so no proof can be counted before some circuit is. */
    lemma StatsProofsNeedCircuits()
      requires Valid()
      ensures GetStats().proofsGenerated == 0 || GetStats().circuitsCompiled > 0
    {
    }
  }
}
