/**
 * The ZKP-Studio web page: the component state and the handlers that compile a
 * policy, generate a proof for the compiled circuit and verify that proof, plus
 * the two fetches that fill the engine list and the statistics bar.
 *
 * Each handler runs to completion in one step. The remote call it awaits is a
 * parameter (its outcome); the handler returns the request it sends, or None
 * when its input check fails and nothing is sent.
 */
module Frontend {
  import opened Wrappers
  import opened Text
  import opened Engines
  import opened Policy
  import opened Backend

  /** The page's three tabs: 'compile', 'circuit' and 'proof'. */
  datatype Tab = CompileTab | CircuitTab | ProofTab

  /**
   * What an awaited request to the backend came to: an ok response whose body
   * was decoded, a response that was not ok, or an error thrown on the way
   * (network failure, undecodable body) with its message.
   */
  datatype Call<T> = Answered(data: T) | NotOk | Threw(message: string)

  /**
   * The engine and statistics fetches do not look at the response status:
   * either a body was decoded, or something threw and only a console message
   * is written.
   */
  datatype Fetch<T> = Fetched(data: T) | FetchFailed

  /** A snapshot of the component state, one field per state variable. */
  datatype AppState = AppState(
    activeTab: Tab,
    policyText: string,
    loading: bool,
    compiledCircuit: Option<CircuitRecord>,
    proof: Option<ProofRecord>,
    engines: Option<map<string, EngineInfo>>,
    stats: Option<Stats>,
    error: Option<string>)

  /**
   * The message a failed call leaves in `error`: the handler's own message for
   * a response that was not ok, the thrown error's message otherwise; None
   * for a call that succeeded.
   */
  function CallError<T>(outcome: Call<T>, notOkMessage: string): (e: Option<string>)
    ensures e.None? <==> outcome.Answered?
    ensures outcome.NotOk? ==> e == Some(notOkMessage)
    ensures outcome.Threw? ==> e == Some(outcome.message)
  {
    match outcome
    case Answered(_) => None
    case NotOk => Some(notOkMessage)
    case Threw(message) => Some(message)
  }

  const EmptyPolicyMessage := "Please enter a policy statement"
  const NoCircuitMessage := "Please compile a policy first"
  const NoProofMessage := "No proof to verify"
  const CompileFailedMessage := "Compilation failed"
  const ProveFailedMessage := "Proof generation failed"
  const VerifyFailedMessage := "Verification failed"

  class App {
    var activeTab: Tab
    var policyText: string
    var loading: bool
    var compiledCircuit: Option<CircuitRecord>
    var proof: Option<ProofRecord>
    var engines: Option<map<string, EngineInfo>>
    var stats: Option<Stats>
    var error: Option<string>

    ghost function State(): AppState
      reads this
    {
      AppState(activeTab, policyText, loading, compiledCircuit, proof, engines, stats, error)
    }

    /**
     * Between handlers nothing is loading, and a proof is only ever obtained
     * for a compiled circuit, which no handler removes. Every handler
     * preserves it; `Session` relies on it to know the page is idle
     * and still holds the compiled circuit once the workflow is done.
     */
    ghost predicate Valid()
      reads this
    {
      !loading && (proof.Some? ==> compiledCircuit.Some?)
    }

    /** The initial state: the compile tab, an empty policy, nothing loaded. */
    constructor ()
      ensures State() == AppState(CompileTab, "", false, None, None, None, None, None)
      ensures Valid()
    {
      activeTab := CompileTab;
      policyText := "";
      loading := false;
      compiledCircuit := None;
      proof := None;
      engines := None;
      stats := None;
      error := None;
    }

    /** Editing the policy text, or picking one of the example policies. */
    method SetPolicyText(text: string)
      modifies this
      ensures State() == old(State()).(policyText := text)
      ensures old(Valid()) ==> Valid()
    {
      policyText := text;
    }

    /** Fills the engine list with the `engines` field of the body, if one was decoded. */
    method FetchEngines(outcome: Fetch<Option<map<string, EngineInfo>>>)
      modifies this
      ensures outcome.Fetched? ==> State() == old(State()).(engines := outcome.data)
      ensures outcome.FetchFailed? ==> State() == old(State())
      ensures old(Valid()) ==> Valid()
    {
      if outcome.Fetched? {
        engines := outcome.data;
      }
    }

    /** Fills the statistics bar with the decoded body, if there is one. */
    method FetchStats(outcome: Fetch<Stats>)
      modifies this
      ensures outcome.Fetched? ==> State() == old(State()).(stats := Some(outcome.data))
      ensures outcome.FetchFailed? ==> State() == old(State())
      ensures old(Valid()) ==> Valid()
    {
      if outcome.Fetched? {
        stats := Some(outcome.data);
      }
    }

    /**
     * Compile: a blank policy is refused with a message and nothing is sent;
     * otherwise the policy is sent with domain "general", a compiled circuit
     * is stored and shown on the circuit tab, and a failure leaves its
     * message. The proof of an earlier circuit is kept either way.
     */
    method HandleCompile(outcome: Call<CircuitRecord>) returns (request: Option<PolicyRequest>)
      modifies this
      ensures request.None? <==> IsBlank(old(policyText))
      ensures request.None? ==> State() == old(State()).(error := Some(EmptyPolicyMessage))
      ensures request.Some? ==>
        && request.value == PolicyRequest(old(policyText), "general")
        && (outcome.Answered? ==>
              State() == old(State()).(loading := false, error := None,
                                       compiledCircuit := Some(outcome.data), activeTab := CircuitTab))
        && (!outcome.Answered? ==>
              State() == old(State()).(loading := false, error := CallError(outcome, CompileFailedMessage)))
      ensures old(Valid()) ==> Valid()
    {
      var blank := TrimsToEmpty(policyText);
      if blank {
        error := Some(EmptyPolicyMessage);
        return None;
      }
      loading := true;
      error := None;
      request := Some(PolicyRequest(policyText, "general"));
      match outcome {
      case Answered(data) =>
        compiledCircuit := Some(data);
        activeTab := CircuitTab;
      case NotOk =>
        error := Some(CompileFailedMessage);
      case Threw(message) =>
        error := Some(message);
      }
      loading := false;
    }

    /**
     * Generate a proof: without a compiled circuit it is refused with a
     * message; otherwise the circuit's id is sent with engine "auto", a proof
     * is stored and shown on the proof tab, and a failure leaves its message.
     */
    method HandleGenerateProof(outcome: Call<ProofRecord>) returns (request: Option<ProofRequest>)
      modifies this
      ensures request.None? <==> old(compiledCircuit).None?
      ensures request.None? ==> State() == old(State()).(error := Some(NoCircuitMessage))
      ensures request.Some? ==>
        && request.value == ProofRequest(old(compiledCircuit).value.circuitId, "auto")
        && (outcome.Answered? ==>
              State() == old(State()).(loading := false, error := None,
                                       proof := Some(outcome.data), activeTab := ProofTab))
        && (!outcome.Answered? ==>
              State() == old(State()).(loading := false, error := CallError(outcome, ProveFailedMessage)))
      ensures old(Valid()) ==> Valid()
    {
      if compiledCircuit.None? {
        error := Some(NoCircuitMessage);
        return None;
      }
      loading := true;
      error := None;
      request := Some(ProofRequest(compiledCircuit.value.circuitId, "auto"));
      match outcome {
      case Answered(data) =>
        proof := Some(data);
        activeTab := ProofTab;
      case NotOk =>
        error := Some(ProveFailedMessage);
      case Threw(message) =>
        error := Some(message);
      }
      loading := false;
    }

    /**
     * Verify the stored proof: without one it is refused with a message;
     * otherwise the proof's id is sent, and a verification that comes back is
     * only shown in an alert (returned as `alerted`); a failure leaves its
     * message.
     */
    method HandleVerifyProof(outcome: Call<Verification>)
      returns (request: Option<string>, alerted: Option<Verification>)
      modifies this
      ensures request.None? <==> old(proof).None?
      ensures request.None? ==> alerted.None? && State() == old(State()).(error := Some(NoProofMessage))
      ensures request.Some? ==>
        && request.value == old(proof).value.proofId
        && (outcome.Answered? ==>
              alerted == Some(outcome.data) && State() == old(State()).(loading := false, error := None))
        && (!outcome.Answered? ==>
              alerted.None? &&
              State() == old(State()).(loading := false, error := CallError(outcome, VerifyFailedMessage)))
      ensures old(Valid()) ==> Valid()
    {
      alerted := None;
      if proof.None? {
        error := Some(NoProofMessage);
        return None, None;
      }
      loading := true;
      error := None;
      request := Some(proof.value.proofId);
      match outcome {
      case Answered(data) =>
        alerted := Some(data);
      case NotOk =>
        error := Some(VerifyFailedMessage);
      case Threw(message) =>
        error := Some(message);
      }
      loading := false;
    }
  }

  /**
   * One pass through the workflow against the backend: the page sends a
   * non-blank policy, then asks for a proof of the circuit it got back, then
   * verifies that proof. Every request succeeds, the proof runs on the engine
   * the classifier recommends for the policy, and it verifies.
   */
  method Session(
    policyText: string, circuitId: string, timestamp: string,
    proofData: string, verificationKey: string, generationTimeMs: real, proofId: string,
    verifiedAt: string)
    returns (verification: Verification, app: App)
    requires !IsBlank(policyText)
    requires |circuitId| == 16 && |proofId| == 16
    ensures app.Valid()
    ensures app.compiledCircuit.Some? && app.compiledCircuit.value.circuitId == circuitId
    ensures app.proof.Some? && app.proof.value.proofId == proofId && app.proof.value.circuitId == circuitId
    ensures app.activeTab == ProofTab && app.error.None?
    ensures verification.valid
    ensures verification.proofId == proofId
    ensures verification.engine == AnalyzePolicyComplexity(policyText).recommendedEngine
  {
    var store := new Store();
    app := new App();
    app.SetPolicyText(policyText);

    var circuit := store.CompilePolicy(PolicyRequest(policyText, "general"), circuitId, timestamp);
    var compileRequest := app.HandleCompile(Answered(circuit));
    assert compileRequest == Some(PolicyRequest(policyText, "general"));

    var proved := store.GenerateProof(ProofRequest(circuitId, "auto"), proofData, verificationKey, generationTimeMs, proofId);
    assert proved.Ok?;
    var proveRequest := app.HandleGenerateProof(Answered(proved.value));
    assert proveRequest == Some(ProofRequest(circuitId, "auto"));

    var verified := store.VerifyProof(proofId, verifiedAt);
    var verifyRequest, alerted := app.HandleVerifyProof(Answered(verified.value));
    assert verifyRequest == Some(proofId);
    verification := alerted.value;
  }
}
