/** Voting processes, their keys, censuses and votes: the operations of the state on them. */
module Voting {
  import opened Common
  import opened Accounts

  const PROCESS_ID_SIZE := 32
  const NULLIFIER_SIZE := 32
  const CENSUS_KEY_SIZE := 32
  const MAX_KEY_INDEX := 16

  datatype Status = Unknown | Ready | Ended | Canceled | Paused | Results

  datatype Mode = Mode(interruptible: bool, dynamicCensus: bool, preRegister: bool)

  datatype Envelope = Envelope(serial: bool, anonymous: bool, encryptedVotes: bool)

  datatype CensusOrigin = UnknownOrigin | OffChainTree | OffChainTreeWeighted | OffChainCA | Erc20 | MiniMe

  /** A voting process.  Its rolling census root is the one of the last commit. */
  datatype Process = Process(
    entity: Address, startBlock: uint32, blockCount: uint32,
    status: Status, mode: Mode, envelope: Envelope,
    censusOrigin: CensusOrigin, censusRoot: Bytes, censusURI: string,
    maxCensusSize: Option<uint64>, rollingCensusSize: Option<uint64>, rollingCensusRoot: map<uint64, Bytes>,
    keyIndex: Option<uint32>, publicKeys: seq<Bytes>, privateKeys: seq<Bytes>,
    results: seq<Option<ProcessResult>>)

  datatype Vote = Vote(processId: Bytes, nullifier: Bytes, package: Bytes, weight: nat, keyIndexes: seq<uint32>, height: uint32)

  /** A rolling census: keys by sequential index, and the length kept beside the tree. */
  datatype Census = Census(leaves: map<uint64, Bytes>, length: uint64)

  datatype Elections = Elections(
    processes: map<Bytes, Process>,
    votes: map<Bytes, map<Bytes, Vote>>,
    voteCount: uint64,
    censuses: map<Bytes, Census>,
    usedWeight: map<(Bytes, Address), int>,
    startIndex: map<Bytes, seq<Bytes>>)

  /** What the state machine takes from elsewhere: proof verification, hashes and keys, as
      deterministic functions of their arguments. */
  datatype Env = Env(
    verifyProof: (CensusOrigin, Bytes, Bytes, Bytes, Address) -> Option<nat>,
    verifyZk: (Bytes, Bytes, map<uint64, Bytes>, Bytes, Bytes) -> bool,
    nullifierOf: (Address, Bytes) -> Bytes,
    publicKeyOf: Bytes -> Option<Bytes>,
    startKey: uint32 -> Bytes,
    processIdOf: (Address, CensusOrigin, Envelope, uint32) -> Bytes,
    maxCircuitSize: nat)

  /** The last block of a process, in machine arithmetic. */
  function EndBlock(p: Process): uint32 {
    Add32(p.startBlock, p.blockCount)
  }

  predicate NeedsKeys(p: Process) {
    p.envelope.encryptedVotes || p.envelope.anonymous
  }

  /** Replaces a process that exists. */
  function UpdateProcess(s: Elections, pid: Bytes, p: Process): Result<Elections, Error> {
    if |pid| != PROCESS_ID_SIZE || pid !in s.processes then Err(ProcessNotFound)
    else Ok(s.(processes := s.processes[pid := p]))
  }

  // ------------------------------------------------ processes

  /** Stores a new process with an empty vote tree, and empty rolling census if voters are
      to register, and indexes it by the block it starts at. */
  function AddProcess(env: Env, s: Elections, pid: Bytes, p: Process): Result<Elections, Error> {
    if pid in s.processes then Err(ProcessExists)
    else
      var key := env.startKey(p.startBlock);
      var pids := if key in s.startIndex then s.startIndex[key] else [];
      Ok(s.(
        processes := s.processes[pid := if p.mode.preRegister then p.(rollingCensusRoot := map[]) else p],
        votes := s.votes[pid := map[]],
        censuses := if p.mode.preRegister && p.envelope.anonymous then s.censuses[pid := Census(map[], 0)] else s.censuses,
        startIndex := s.startIndex[key := pids + [pid]]))
  }

  /** Whether a process may go to another status at a height. */
  function StatusCheck(p: Process, next: Status, height: uint32): Result<(), Error> {
    match next
    case Ready => if p.status.Paused? then Ok(()) else Err(InvalidStatus)
    case Ended =>
      if !p.status.Ready? then Err(InvalidStatus)
      else if !p.mode.interruptible && height <= EndBlock(p) then Err(InvalidStatus)
      else Ok(())
    case Canceled =>
      if p.status.Canceled? || p.status.Ended? || p.status.Results? then Err(InvalidStatus)
      else if !p.status.Paused? && !p.mode.interruptible then Err(InvalidStatus)
      else Ok(())
    case Paused =>
      if !p.status.Ready? || !p.mode.interruptible then Err(InvalidStatus) else Ok(())
    case Results =>
      if !p.status.Ended? && !p.status.Ready? then Err(InvalidStatus)
      else if p.status.Ready? && EndBlock(p) <= height then Err(InvalidStatus)
      else Ok(())
    case Unknown => Err(InvalidStatus)
  }

  function SetProcessStatus(s: Elections, pid: Bytes, next: Status, height: uint32): Result<Elections, Error> {
    if pid !in s.processes then Err(ProcessNotFound)
    else match StatusCheck(s.processes[pid], next, height)
      case Err(e) => Err(e)
      case Ok(_) => UpdateProcess(s, pid, s.processes[pid].(status := next))
  }

  /** The results of one oracle: for every question the votes of each choice. */
  datatype ProcessResult = ProcessResult(processId: Bytes, entity: Address, oracle: Option<Address>, votes: seq<seq<Bytes>>)

  /** The first results come after empty slots, two for each oracle there is then. */
  function ResultSlots(p: Process, oracles: nat): seq<Option<ProcessResult>> {
    if p.results == [] then seq(2 * oracles, _ => None) else p.results
  }

  predicate Reported(results: seq<Option<ProcessResult>>, oracle: Address) {
    exists i :: 0 <= i < |results| && results[i].Some? && results[i].value.oracle == Some(oracle)
  }

  function SetProcessResults(s: Elections, pid: Bytes, result: ProcessResult, oracles: nat, height: uint32): Result<Elections, Error> {
    if pid !in s.processes then Err(ProcessNotFound)
    else
      var p := s.processes[pid];
      if !p.status.Ended? && !p.status.Ready? && !p.status.Results? then Err(InvalidStatus)
      else if p.status.Ready? && EndBlock(p) > height then Err(InvalidStatus)
      else if result.processId != pid || result.entity != p.entity || result.oracle.None? then Err(InvalidResults)
      else if Reported(p.results, result.oracle.value) then Err(InvalidResults)
      else UpdateProcess(s, pid, p.(status := Results, results := ResultSlots(p, oracles) + [Some(result)]))
  }

  predicate AllowsCensusUpdate(o: CensusOrigin) {
    o.OffChainTree? || o.OffChainTreeWeighted? || o.OffChainCA?
  }

  predicate NeedsURI(o: CensusOrigin) {
    o.OffChainTree? || o.OffChainTreeWeighted? || o.OffChainCA?
  }

  function SetProcessCensus(s: Elections, pid: Bytes, root: Bytes, uri: string): Result<Elections, Error> {
    if pid !in s.processes then Err(ProcessNotFound)
    else
      var p := s.processes[pid];
      if !p.mode.dynamicCensus || !AllowsCensusUpdate(p.censusOrigin) then Err(InvalidProcess)
      else if !p.status.Ready? && !p.status.Paused? then Err(InvalidStatus)
      else if root == p.censusRoot then Err(SameCensus)
      else if NeedsURI(p.censusOrigin) && uri == "" then Err(InvalidTx)
      else UpdateProcess(s, pid, p.(censusRoot := root, censusURI := uri))
  }

  // ------------------------------------------------ encryption keys

  /** Whether a key can be published in a slot; a slot the process lacks is out of range. */
  function AddKeysCheck(p: Process, index: Option<uint32>, key: Option<Bytes>, height: uint32): Result<(), Error> {
    if index.None? then Err(InvalidKeyIndex)
    else if height > p.startBlock then Err(ProcessFinished)
    else if p.status.Canceled? || p.status.Ended? || p.status.Results? then Err(InvalidStatus)
    else if index.value >= |p.publicKeys| then Err(InvalidKeyIndex)
    else if |p.publicKeys[index.value]| > 0 then Err(KeyTaken)
    else if key.None? || index.value < 1 || index.value > MAX_KEY_INDEX then Err(InvalidKeyIndex)
    else Ok(())
  }

  function AddProcessKeys(s: Elections, pid: Bytes, index: Option<uint32>, key: Option<Bytes>, height: uint32): Result<Elections, Error> {
    if pid !in s.processes then Err(ProcessNotFound)
    else match AddKeysCheck(s.processes[pid], index, key, height)
      case Err(e) => Err(e)
      case Ok(_) =>
        var p := s.processes[pid];
        UpdateProcess(s, pid, p.(
          publicKeys := p.publicKeys[index.value := key.value],
          keyIndex := Some(Add32(p.keyIndex.GetOr(0), 1))))
  }

  /** Whether a private key can be revealed: the process is over and the key matches the
      public key of its slot. */
  function RevealKeysCheck(env: Env, p: Process, index: Option<uint32>, key: Option<Bytes>, height: uint32): Result<(), Error> {
    if index.None? then Err(InvalidKeyIndex)
    else if height < EndBlock(p) && !p.status.Ended? && !p.status.Canceled? then Err(InvalidStatus)
    else if index.value >= |p.privateKeys| || index.value >= |p.publicKeys| then Err(InvalidKeyIndex)
    else if |p.privateKeys[index.value]| > 0 then Err(KeyTaken)
    else if key.None? || index.value < 1 || index.value > MAX_KEY_INDEX then Err(InvalidKeyIndex)
    else if |p.publicKeys[index.value]| < 1 then Err(KeyUnknown)
    else if env.publicKeyOf(key.value) != Some(p.publicKeys[index.value]) then Err(KeyMismatch)
    else if p.keyIndex.None? || p.keyIndex.value < 1 then Err(NoKeys)
    else Ok(())
  }

  function RevealProcessKeys(env: Env, s: Elections, pid: Bytes, index: Option<uint32>, key: Option<Bytes>, height: uint32): Result<Elections, Error> {
    if pid !in s.processes then Err(ProcessNotFound)
    else match RevealKeysCheck(env, s.processes[pid], index, key, height)
      case Err(e) => Err(e)
      case Ok(_) =>
        var p := s.processes[pid];
        UpdateProcess(s, pid, p.(
          privateKeys := p.privateKeys[index.value := key.value],
          keyIndex := Some(p.keyIndex.value - 1)))
  }

  // ------------------------------------------------ votes

  datatype VoteEnvelope = VoteEnvelope(processId: Bytes, proof: Option<Bytes>, package: Bytes, nullifier: Bytes, keyIndexes: seq<uint32>)

  /** The conditions every vote meets at the time it is delivered. */
  function VoteGate(p: Process, height: uint32): Result<(), Error> {
    if height < p.startBlock then Err(ProcessNotStarted)
    else if height > EndBlock(p) then Err(ProcessFinished)
    else if !p.status.Ready? then Err(InvalidStatus)
    else if p.envelope.encryptedVotes && p.keyIndex.Some? && p.keyIndex.value < 1 then Err(NoKeys)
    else Ok(())
  }

  /** The nullifier of a vote: given by the envelope of an anonymous vote, and derived from
      the signer otherwise. */
  function VoteNullifier(env: Env, p: Process, ve: VoteEnvelope, signer: Option<Address>): Result<Bytes, Error> {
    if p.envelope.anonymous then
      if ve.proof.None? then Err(ProofInvalid) else Ok(ve.nullifier)
    else if signer.None? then Err(InvalidSignature)
    else if ve.proof.None? then Err(ProofInvalid)
    else if p.envelope.encryptedVotes && ve.keyIndexes == [] then Err(NoKeys)
    else Ok(env.nullifierOf(signer.value, ve.processId))
  }

  /** The weight of a vote whose proof is valid for the census of the process. */
  function VoteWeight(env: Env, p: Process, ve: VoteEnvelope, signer: Option<Address>): Result<nat, Error>
    requires VoteNullifier(env, p, ve, signer).Ok?
  {
    if p.envelope.anonymous then
      if !env.verifyZk(ve.proof.value, ve.processId, p.rollingCensusRoot, ve.nullifier, ve.package) then Err(ProofInvalid)
      else if p.envelope.encryptedVotes && ve.keyIndexes == [] then Err(NoKeys)
      else Ok(1)
    else
      match env.verifyProof(p.censusOrigin, p.censusRoot, ve.processId, ve.proof.value, signer.value)
      case None => Err(ProofInvalid)
      case Some(weight) => Ok(weight)
  }

  function EnvelopeExists(s: Elections, pid: Bytes, nullifier: Bytes): Result<bool, Error> {
    if |pid| != PROCESS_ID_SIZE || |nullifier| != NULLIFIER_SIZE then Err(WrongSize)
    else Ok(pid in s.votes && nullifier in s.votes[pid])
  }

  /** The full check of a vote that is not in the cache. */
  function FullVoteCheck(env: Env, s: Elections, p: Process, ve: VoteEnvelope, signer: Option<Address>, height: uint32): Result<Vote, Error> {
    match VoteNullifier(env, p, ve, signer)
    case Err(e) => Err(e)
    case Ok(nullifier) =>
      match EnvelopeExists(s, ve.processId, nullifier)
      case Err(e) => Err(e)
      case Ok(taken) =>
        if taken then Err(VoteExists)
        else match VoteWeight(env, p, ve, signer)
          case Err(e) => Err(e)
          case Ok(weight) =>
            Ok(Vote(ve.processId, nullifier, ve.package, weight, if p.envelope.encryptedVotes then ve.keyIndexes else [], height))
  }

  /** The lazy check of a vote that passed the full check before. */
  function CachedVoteCheck(s: Elections, cached: Vote, height: uint32): Result<Vote, Error> {
    match EnvelopeExists(s, cached.processId, cached.nullifier)
    case Err(e) => Err(e)
    case Ok(taken) => if taken then Err(VoteExists) else Ok(cached.(height := height))
  }

  /** The check of a vote, for the mempool or for a block. */
  function VoteEnvelopeCheck(env: Env, s: Elections, ve: VoteEnvelope, signer: Option<Address>, height: uint32,
                             cached: Option<Vote>, forCommit: bool): Result<Vote, Error>
  {
    if ve.processId !in s.processes then Err(ProcessNotFound)
    else
      var p := s.processes[ve.processId];
      match VoteGate(p, height)
      case Err(e) => Err(e)
      case Ok(_) =>
        if !p.envelope.anonymous && signer.None? then Err(InvalidSignature)
        else if cached.Some? then
          if forCommit then CachedVoteCheck(s, cached.value, height) else Err(InCache)
        else FullVoteCheck(env, s, p, ve, signer, height)
  }

  /** Stores a vote and counts it; a vote that exists is never replaced. */
  function AddVote(s: Elections, vote: Vote, height: uint32): Result<Elections, Error> {
    if |vote.processId| != PROCESS_ID_SIZE || |vote.nullifier| != NULLIFIER_SIZE then Err(WrongSize)
    else if vote.processId !in s.processes || vote.processId !in s.votes then Err(ProcessNotFound)
    else if vote.nullifier in s.votes[vote.processId] then Err(VoteExists)
    else
      var tree := s.votes[vote.processId][vote.nullifier := vote.(height := height)];
      Ok(s.(votes := s.votes[vote.processId := tree], voteCount := Add64(s.voteCount, 1)))
  }

  // ------------------------------------------------ rolling census

  datatype Registration = Registration(processId: Bytes, proof: Option<Bytes>, newKey: Bytes, weight: Option<int>)

  /** Whether a key may be registered, and the weight its owner has then used. */
  function RegisterKeyCheck(env: Env, s: Elections, tx: Registration, signer: Option<Address>, height: uint32): Result<int, Error> {
    if tx.processId !in s.processes then Err(ProcessNotFound)
    else
      var p := s.processes[tx.processId];
      if height >= p.startBlock then Err(ProcessFinished)
      else if !p.mode.preRegister || !p.envelope.anonymous || tx.processId !in s.censuses || p.maxCensusSize.None? then Err(InvalidProcess)
      else if !p.status.Ready? then Err(InvalidStatus)
      else if tx.proof.None? then Err(ProofInvalid)
      else if signer.None? then Err(InvalidSignature)
      else if |tx.newKey| != CENSUS_KEY_SIZE then Err(WrongSize)
      else if s.censuses[tx.processId].length >= p.maxCensusSize.value then Err(CensusFull)
      else match env.verifyProof(p.censusOrigin, p.censusRoot, tx.processId, tx.proof.value, signer.value)
        case None => Err(ProofInvalid)
        case Some(weight) =>
          var owner := (tx.processId, signer.value);
          var used := if owner in s.usedWeight then s.usedWeight[owner] else 0;
          if tx.weight.None? then Err(WeightInvalid)
          else if used + tx.weight.value != 1 then Err(WeightInvalid)
          else if used + tx.weight.value > weight then Err(WeightInvalid)
          else Ok(used + tx.weight.value)
  }

  /** Appends a key to a rolling census. */
  function AddToRollingCensus(s: Elections, pid: Bytes, key: Bytes): Result<Elections, Error> {
    if pid !in s.processes || pid !in s.censuses || s.processes[pid].maxCensusSize.None? then Err(ProcessNotFound)
    else
      var census := s.censuses[pid];
      if census.length >= s.processes[pid].maxCensusSize.value then Err(CensusFull)
      else if census.length in census.leaves then Err(KeyTaken)
      else
        Ok(s.(censuses := s.censuses[pid := Census(census.leaves[census.length := key], Add64(census.length, 1))]))
  }

  /** A process as it is committed: with the size of its rolling census fixed, if it is in a
      list, and with the root of its rolling census. */
  function SavedProcess(s: Elections, pids: seq<Bytes>, pid: Bytes): Process
    requires pid in s.processes
  {
    var p := s.processes[pid];
    if !p.mode.preRegister || pid !in s.censuses then p
    else
      var size := if pid in pids then Some(s.censuses[pid].length) else p.rollingCensusSize;
      p.(rollingCensusSize := size, rollingCensusRoot := s.censuses[pid].leaves)
  }

  function StartingAt(env: Env, s: Elections, block: uint32): seq<Bytes> {
    var key := env.startKey(block);
    if key in s.startIndex then s.startIndex[key] else []
  }

  /** The size of a listed process can be fixed: it exists, and has a census if its voters
      register. */
  predicate Sizeable(s: Elections, pid: Bytes) {
    pid in s.processes && (s.processes[pid].mode.preRegister ==> pid in s.censuses)
  }

  /** The end of a block: census sizes of the processes that start with the next one are
      fixed, and the state is committed. */
  function Save(env: Env, s: Elections, height: uint32): Result<Elections, Error> {
    var pids := StartingAt(env, s, Add32(height, 1));
    if exists i :: 0 <= i < |pids| && !Sizeable(s, pids[i]) then Err(ProcessNotFound)
    else Ok(s.(processes := map pid | pid in s.processes :: SavedProcess(s, pids, pid)))
  }
}
