# ZKP-Studio in Dafny

ZKP-Studio is a demonstration platform for policy-aware zero-knowledge proofs.
A user types a policy in natural language. The backend classifies it by keyword into
one of four circuit kinds and generates a mock circuit for it. It then issues mock
proofs on one of four proof engines and "verifies" them. The web page drives this
workflow through three handlers.

This project models both halves.

- **Backend** (`backend/main.py`):
  - the engine catalogue `ZKP_ENGINES` and `GET /engines`;
  - the keyword classifier `analyze_policy_complexity`;
  - the circuit generator `compile_policy_to_circuit` and its constraint-line loop;
  - the handlers `POST /compile`, `POST /prove`, `POST /verify/{id}`,
    `GET /circuits/{id}`, `GET /proofs/{id}` and `GET /stats`.

  The two in-memory dictionaries `circuits_db` and `proofs_db` are the fields of the
  class `Backend.Store`. The handlers that insert into them are methods; the
  read-only handlers are functions that read the store. The predicate
  `StoresConsistent` is an invariant that every handler preserves:
  - each record sits under its own id;
  - every engine is catalogued;
  - every proof is "valid" and refers to a stored circuit.
- **Frontend** (`frontend/src/App.js`): the component state is the class
  `Frontend.App`, with one field per state variable. Each handler is a method:
  - `fetchEngines`, `fetchStats`;
  - `handleCompile`, `handleGenerateProof`, `handleVerifyProof`;
  - the text box's `setPolicyText`.

  `FetchEngines` and `FetchStats` take the outcome of their GET request as a
  parameter. The three `Handle*` methods take the outcome of the request they
  await, and return the request they send. They return `None` when the input check
  refuses to send one.
  `Frontend.Session` runs the whole workflow against a fresh `Store`:
  compile, then prove, then verify.

Modules:
- `Wrappers`: `Option`, `Result`.
- `Text`: ASCII lower-casing, Python's substring test, decimal digits,
  JavaScript's `trim`.
- `Engines`
- `Policy`
- `Circuit`
- `Backend`
- `Frontend`

Some facts about the code that the model keeps:
- A successful compile sets only the compiled circuit and the tab
  (`frontend/src/App.js:67-68`). An earlier proof stays in place.
- No handler rejects a call while another is loading, and no failure records which
  step failed.
- Every stored proof has status `"valid"` (`backend/main.py:288`).

## Model

| member | source | states |
|---|---|---|
| Engines.ListEngines | backend/main.py:178-184 | the listing holds exactly the engines groth16, plonk, stark and bulletproofs, and its total is 4 |
| Engines.ZkpEngines | backend/main.py:64-93 | the catalogue constant: the four engines groth16, plonk, stark and bulletproofs, each with the name, proof size, verification time, setup and use of main.py:64-93 |
| Text.LowerChar | backend/main.py:100 | upper-case ASCII letters move up by 32 code points, every other character is kept, and no upper-case letter remains |
| Text.Lower | backend/main.py:100 | lower-casing keeps the length and lowers each character in place |
| Text.LowerIdempotent | backend/main.py:100-114 | lower-casing an already lower-cased text changes nothing |
| Text.Contains | backend/main.py:100 | Python's `needle in text`: a needle longer than the text never occurs, and the empty needle always does (full characterisation in ContainsIff) |
| Text.ContainsIff | backend/main.py:100 | Python's `needle in text` holds exactly when the needle occurs at some position of the text |
| Text.DigitChar | backend/main.py:154 | the digit character for d < 10 is a decimal digit whose value is d |
| Text.Digits | backend/main.py:154 | a number's decimal rendering is non-empty, all digits, with no leading zero |
| Text.DigitsRoundTrip | backend/main.py:154 | reading a number's decimal rendering back gives the number |
| Text.TrimStart | frontend/src/App.js:42 | the result is a suffix of the input that does not start with JavaScript whitespace, and only whitespace was dropped |
| Text.TrimEnd | frontend/src/App.js:42 | the result is a prefix of the input that does not end with JavaScript whitespace, and only whitespace was dropped |
| Text.Trim | frontend/src/App.js:42 | `trim()`: the result sits in the input after the whitespace that TrimStart drops, with only whitespace before and after it, and it neither starts nor ends with whitespace |
| Text.TrimEmptyIff | frontend/src/App.js:42 | `policyText.trim()` is empty exactly when every character is whitespace (both directions) |
| Text.TrimsToEmpty | frontend/src/App.js:42 | the input check `!policyText.trim()` comes out true exactly when the text is blank |
| Policy.AnalyzePolicyComplexity | backend/main.py:95-127 | the classification is one of the four fixed analyses, its recommended engine is in the catalogue, it has at least 100 constraints, and its entropy is a whole number of bytes |
| Policy.AnalyzeKeywordPriority | backend/main.py:100-127 | each circuit type is chosen exactly when its keyword test passes and every earlier test fails, in the order age-and-verify, confidential-or-private, audit-or-compliance, otherwise general |
| Policy.AnalyzeIgnoresCase | backend/main.py:100-114 | a policy and its lower-cased form are classified alike |
| Policy.AnalyzeIsFirstMatch | backend/main.py:100-127 | the if-chain equals a first-match reading of a separate keyword rule table with "general" as the fallback |
| Circuit.PolicyPreview | backend/main.py:137 | the preview is the policy's prefix of length min(50, length) |
| Circuit.ConstraintLineCount | backend/main.py:153 | the count is min(5, constraints // 100): at most 5, at most one per hundred constraints, and it stops short only at 5 |
| Circuit.ConstraintLine | backend/main.py:154 | the text of constraint line i begins with the line prefix and ends with ";" |
| Circuit.ConstraintLineNumber | backend/main.py:154 | constraint line i starts with the line prefix, and the digits right after it read back as i |
| Circuit.GeneratedForUnique | backend/main.py:129-166 | a policy and an analysis determine the generated circuit uniquely |
| Circuit.CompilePolicyToCircuit | backend/main.py:129-166 | the generated circuit has exactly min(5, constraints // 100) constraint lines, line i is constraint line number i, in order, and the header and footer carry the preview, type, constraint count, entropy bits and engine of the analysis |
| Backend.InsertCircuitKeepsConsistency | backend/main.py:221 | storing a circuit under its own id with a catalogued engine keeps the stores consistent |
| Backend.InsertProofKeepsConsistency | backend/main.py:292 | storing a valid proof of a stored circuit on a catalogued engine keeps the stores consistent |
| Backend.CompiledRecordFacts | backend/main.py:199-218 | a compiled record recommends a catalogued engine; its entropy budget is the analysis's bits divided by 8 and is 16, 24 or 32 bytes; it has 1, 3 or 5 constraint lines, one per hundred constraints |
| Backend.SelectedEngine | backend/main.py:247 | a request for "auto" runs on the circuit's recommended engine, any other request on the engine it names; "auto" is chosen only if the circuit recommends it |
| Backend.Store.constructor | backend/main.py:60-61 | both stores start empty and consistent |
| Backend.Store.CompilePolicy | backend/main.py:186-223 | the response is the record for the policy's analysis under the given 16-character id. It is stored under that id, one new entry when the id is fresh. `proofsDb` is untouched, no key is lost, no count drops, and consistency is kept |
| Backend.Store.GenerateProof | backend/main.py:228-299 | an unknown circuit gives 404 "Circuit not found", and an uncatalogued engine gives 400 "Unknown engine: ...", both storing nothing. "auto" selects the circuit's recommended engine. Otherwise a "valid" proof consuming 95% of the entropy budget is stored under its id. In a consistent store an "auto" request for a stored circuit always succeeds. `circuitsDb` is untouched, no count drops, and consistency is kept |
| Backend.Store.VerifyProof | backend/main.py:301-318 | the result is a success exactly when the proof is stored, otherwise 404 "Proof not found". It is valid, carries the stored engine and 2.5 ms, and reads the stores without changing them |
| Backend.Store.GetCircuit | backend/main.py:320-326 | the stored circuit exactly when its id is stored, otherwise 404 "Circuit not found" |
| Backend.Store.GetProof | backend/main.py:328-334 | the stored proof exactly when its id is stored, otherwise 404 "Proof not found"; in a consistent store it refers to a stored circuit |
| Backend.Store.GetStats | backend/main.py:336-344 | the counts are the sizes of the two stores, 4 engines, status "operational" |
| Backend.Store.StatsProofsNeedCircuits | backend/main.py:336-344 | in a consistent store, proofs can be counted only when some circuit is |
| Frontend.CallError | frontend/src/App.js:62-71 | a failed call leaves the handler's own message for a non-ok response, or the thrown message; a successful call leaves none |
| Frontend.App.constructor | frontend/src/App.js:6-13 | the initial state: compile tab, empty policy, not loading, and nothing compiled, proved, fetched or failed |
| Frontend.App.SetPolicyText | frontend/src/App.js:220 | only the policy text changes |
| Frontend.App.FetchEngines | frontend/src/App.js:21-29 | a decoded body replaces only `engines`; a failed fetch changes nothing |
| Frontend.App.FetchStats | frontend/src/App.js:31-39 | a decoded body replaces only `stats`; a failed fetch changes nothing |
| Frontend.App.HandleCompile | frontend/src/App.js:41-75 | a blank policy sends nothing and only sets "Please enter a policy statement". Otherwise the request is the policy with domain "general", the error is cleared and loading ends false. Success stores the circuit and shows the circuit tab; the proof is kept. Failure leaves "Compilation failed" or the thrown message, with nothing else changed |
| Frontend.App.HandleGenerateProof | frontend/src/App.js:77-115 | with no compiled circuit it sends nothing and only sets "Please compile a policy first". Otherwise the request is the circuit's id with engine "auto", the error is cleared and loading ends false. Success stores the proof and shows the proof tab. Failure leaves "Proof generation failed" or the thrown message |
| Frontend.App.HandleVerifyProof | frontend/src/App.js:117-142 | with no proof it sends nothing and only sets "No proof to verify". Otherwise the request is the proof's id. Success alerts the verification and changes nothing but clearing the error and ending loading. Failure leaves "Verification failed" or the thrown message |
| Frontend.Session | frontend/src/App.js:41-142 | compiling a non-blank policy, proving the returned circuit and verifying the returned proof against a fresh backend yields a valid verification of that proof on the engine the classifier recommends for the policy. The page ends idle and consistent (`App.Valid`), on the proof tab with no error, and holds that circuit and its proof |

## Left out

- The fixed text of the generated circuit is not modelled: the comment lines, the signal declarations and the output block. `Circuit.CircuitCode` keeps the values that vary and the full text of each constraint line.
- Python's `str.lower()` maps non-ASCII letters too; `Text.Lower` lowers ASCII letters only.
- SHA-256 digests, `time.time()` and `datetime.utcnow()` are foreign calls and clock readings. The ids, proof data, verification keys, timestamps and generation times are parameters. An id is only required to have sixteen characters.
- The proof request's `witness_data` only feeds a digest, so it is not part of `ProofRequest`.
- Floating point: entropy budgets, consumption and times are `real`, so IEEE rounding of `budget * 0.95` is not modelled.
- A proof request whose `engine` is JSON `null` fails with "Unknown engine: None"; the model's engine is always a string.
- The `word_count` that the classifier computes and never uses is left out, as is the `domain` field, which the backend ignores (it is kept in `PolicyRequest`).
- The catch-all 500 handlers of `/compile` and `/prove` are left out: no modelled step raises.
- FastAPI setup, CORS, the health endpoint and server start-up are framework plumbing.
- JSX rendering, the alert's text, `console.error`, and fetch and JSON decoding themselves are left out. Decoding is folded into the outcome parameter.
- The fetch of engines and statistics on mount, and the unawaited `fetchStats()` after a successful compile or proof, are left out. Each handler is modelled as one atomic step. The disabled buttons that are the only guard against overlapping handlers are left out as well.
- Frontend.App.FetchStats: the handler does not check `response.ok`. A decoded error body would be stored as the statistics, but the model types the body as `Stats`.
