# Bluzelle swarm: a verified model

Bluzelle is a replicated key/value store. Its nodes agree on an order of requests with a Byzantine
fault-tolerant protocol that follows Castro and Liskov, "Practical Byzantine Fault Tolerance" (OSDI 1999,
sections 4.2 to 4.4), execute the agreed requests in a database with size limits, and keep protocol state
in a string-keyed storage so that it survives a restart. The project models these four layers and proves
what they promise.

* **The replica protocol** is a step system: n replicas, a set of signed envelopes that only grows, and one
  atomic step for each handler, because every handler holds one lock. Faulty peers may add any envelope that
  does not forge a correct peer's signature, also inside proofs. `Replica` gives each handler as a function
  on a replica's state, `Protocol` the system and its invariants, `Invariants` the proof that every step
  keeps them. `History`, `Sending`, `Asking`, `Checking`, `Entering` and `Claims` say what every handler does by
  what a replica has heard: what it holds of an operation, when it votes, asks for a view, announces one and
  follows one, and what a checkpoint claim does. `Views`, `Runs`, `Issuing` and `CheckpointSafety` hold the
  safety of whole runs, `MakerChecker` and `NewviewContent` the agreement between the maker and the checker of
  VIEWCHANGE and NEWVIEW, `Agreement` agreement within and across views, `Replication` its consequence for the
  databases.
  `NormalCase` holds concrete runs of the smallest swarm. `Scenes` and `Phases` are a kit for concrete runs in
  a swarm of four with one faulty peer; `Disagreement`, `LowWater`, `LaggingStart` and `CheckpointRuns` use it
  to show, by runs from the initial state, where the code does not give the plain promise. `Posting` says
  when a replica hands a request to its service, `Exactness` exactly when all runs agree.
  `Node`, `CheckpointManager`, `OperationClasses` and `Validation` are the same code as objects and loops
  that are updated in place; each method is proved to do what the specification functions say.
* **The execution service** (`Service`) takes operations out of order, with duplicates and gaps, and state
  transfers, and is proved to be a fold over a log. `Snapshots` says which state it can hand on, `Backlog` what
  it still has to execute.
* **Persistence** (`Strings`, `MemStorage`, `PersistentState`, `PersistentVars`, `OperationKeys`,
  `PersistentOperation`, `StoredHistory`, `Rehydration`): escaping, padded decimal keys, range scans, the
  ordered store with its byte counter, and a storage-backed operation that refines the in-memory one.
* **Limits and signatures** (`Quota`, `Eviction`, `VolatileTtl`, `Crud`, `SwarmLimit`, `Ownership`, `Admission`,
  `Signing`): the handlers that write entries and the policies that make room for them. `Limits` holds runs of
  the whole store, in which the time-to-live entries and the permission records are databases of their own,
  and `LimitExactness` exactly when every run keeps the limit of a database. `Ownership` says what is known of
  a database by the requests that were accepted.

## Conventions

* A uuid is its rank in the sorted peer list: peers are 0 to n-1, other ids are outsiders. The peer list is
  fixed. The primary of view v is peer v mod n.
* Views and sequence numbers are unbounded in the protocol layer and 64-bit where text keys or wrapping
  arithmetic are at stake. Byte counters wrap at 2^32, sizes at 2^64, as in the code.
* What the code leaves open is an input: which requests travel with a message, the order in which a hash
  table is listed, the clock, whether storage or a snapshot operation succeeds, the index the random policy
  draws.
* The request hash is injective and, in storage keys, of fixed length.
* A replica reaches a checkpoint when its service says so, which is a step of its own (`Executed`).
* That envelopes inside proofs are authentic is an assumption. For the viewchanges inside a NEWVIEW the code
  does not enforce it: `is_valid_newview_message` (pbft/pbft.cpp:1219-1238) looks at their content and their
  senders, not at their signatures. A primary that forges them is outside the model.

## Where the code does not give the plain promise

Each of these has an input. For the protocol it is a run from the initial state with n = 3f+1 peers, f of them
faulty. The condition under which the promise holds is exact.

* Two sets of 2f+1 peers share a correct peer for every choice of f faulty ones exactly when n mod 3 is 1
  (`QuorumsShareCorrectPeerIff`).
* A primary may announce one view with the viewchanges of another (`MisdirectedNewview`). Its NEWVIEW is
  valid exactly when the viewchange that made it send was for the least view it could open
  (`NewviewsPassIff`, `NewviewMadeIsValidIff`).
* Two requests can be committed for one sequence, in different views, and two correct replicas can hand them
  to their services. There are three causes. For each there is a run in which only that one occurs and the
  services do get different requests:
  * a replica enters a view below the last one it asked for, so its VIEWCHANGE knows nothing of what it
    commits there (`UndisciplinedDisagree`, `OlderNewviewAccepted`, `UncoveredCommit`);
  * a NEWVIEW re-proposes the first certificate in sender order, not the one of the latest view
    (`EarlierCertificateDisagree`, `LaterCertificateLoses`, `FirstCertificateWins`);
  * a pre-prepare at or below the checkpoint that its view starts from is accepted
    (`LowPreprepareDisagree`, for a checkpoint at any sequence).

  Without the three there is no disagreement (`CommittedAgree`, `ServicesAgree`, `DatabasesAgree`): the
  conditions `Disciplined`, `AllLatest` and `Guarded` exclude one cause each. Whichever of them are asked for,
  all runs that keep those agree if and only if all three are asked for. That holds for what is committed, for
  what reaches the services and for the databases (`CommitsAlikeIff`, `ServicesAlikeIff`, `DatabasesAlikeIff`).
  The three can be met by a run with commits in two views (`ConditionsCanHold`).
* A correct new primary may give a number at or below the checkpoint its view starts from, when a lagging peer
  is the first in the NEWVIEW and nothing is re-proposed (`LaggingPrimary`); exactly then the next number is
  that low (`NextAboveStartIff`).
* The stable checkpoint alone can move back (`StableRegresses`). Claims that a replica may still hear move it
  back exactly if f+1 peers, the faulty ones among them, can claim one checkpoint from the local up to, not
  including, the stable one (`StableCanRegressIff`). With f faulty peers that is a checkpoint that one correct
  peer has claimed (`AttestableIff`).
* The byte counter is the number of bytes exactly below 4 GiB (`CounterIsBytesIff`, `AdmissionIsRightIff`).
* Nothing reserves the name of the time-to-live entries, so a database called "TTL" can be created and its
  entries are read as time-to-live entries. Two texts that read alike are counted twice by the volatile-ttl
  policy, which then frees too little: 61 bytes where 100 are needed, and 139 are stored under a limit of 100
  (`FreedTooLittle`). Without such a database the entries stay as the code wrote them (`AlwaysGenuine`). The
  limit of a database is kept in every run exactly if it is below 4 GiB and, under volatile-ttl, there is no
  database called "TTL" (`LimitKeptIff`; a limit of one byte is kept all the same).
* `increment_prefix` bounds a prefix scan except after characters 127 and 255 (`IncrementScansIff`).
* The prefix of a stored operation is cut in the right place exactly when "_stage" does not occur in the
  hash with the underscore before it (`CutPrefixIff`); otherwise the operation is not found again
  (`RehydratesExactly`, `LostOperation`, `HidingHash`).
* Deletion removes operations up to a sequence from memory and those below it from storage. The two stand for
  the same operations exactly if there was none at the sequence (`RemovedRefinesIff`). One that is constructed
  again may answer differently in storage (`ReturnedDiffers`). It answers as the new one in memory exactly if
  it was never advanced and had neither pre-prepare nor request (`ReturnedAnswersIff`, `ConstructedAlikeIff`).
* A log key or operation key with a zero in it, or with an empty hash, cannot be read back
  (`LogKeyReadsBackIff`, `OperationKeyReadsBackIff`).
* A request of exactly the maximum age can be given two sequence numbers within one millisecond
  (`DuplicateAssignedIff`, `AssignedTwiceAtTheEdge`).
* A database size near 2^64 passes the swarm limit (`OversizeDatabaseAccepted`). Every run with sizes up to a
  bound keeps the limit exactly if limit and bound add up to less than 2^64 (`SafeSizesIff`). A single run
  keeps it exactly if no accepted size makes the sum wrap (`ResizeKeepsLimitIff`, `SwarmLimitKeptIff`).

## Model

| member | source | states |
|---|---|---|
| `Quorum.FaultBound` | pbft/pbft.cpp:1766-1770 | f is the largest number with 3f < n |
| `Quorum.SharedCorrectPeer` | pbft/pbft.cpp:1778-1782 | with n = 3f+1 any two vote sets of 2f+1 share a peer outside any f faulty ones |
| `Quorum.QuorumsThatMissEachOther` | pbft/pbft.cpp:1778-1782 | for other n there are two vote sets and f faulty peers that cover all they share |
| `Quorum.QuorumsShareCorrectPeerIff` | pbft/pbft.cpp:1766-1782 | every two vote sets share a correct peer if and only if n mod 3 is 1 |
| `Quorum.CorrectMember` | pbft/pbft.cpp:1772-1776 | one of any f+1 peers is correct |
| `Invariants.AdvanceOk` | pbft/pbft.cpp:654-666 | advancing an operation keeps the invariants: a stage is backed by genuine votes of 2f+1 peers |
| `Invariants.HandlePreprepareOk` | pbft/pbft.cpp:439-474 | accepting a pre-prepare keeps the invariants, among them one accepted request for each view and sequence |
| `Invariants.HandleVoteOk` | pbft/pbft.cpp:476-494 | recording a prepare or commit keeps the invariants |
| `Invariants.HandleExecutedOk` | pbft/pbft.cpp:114-136 | announcing a local checkpoint and deleting old operations keeps the invariants, also that commits above the bound still have their certificate |
| `Invariants.HandleRequestOk` | pbft/pbft.cpp:299-309 | assigning a sequence number keeps the invariants |
| `Invariants.InitiateViewchangeOk` | pbft/pbft.cpp:878-903 | sending a viewchange keeps the invariants and the message is authentic throughout |
| `Invariants.HandleViewchangeOk` | pbft/pbft.cpp:1512-1563 | handling a viewchange, joining it and announcing a view keep the invariants |
| `Invariants.HandleNewviewOk` | pbft/pbft.cpp:1565-1606 | entering a view and processing its pre-prepares keep the invariants |
| `Invariants.StepOk` | pbft/pbft.cpp:226-277 | every step of the system, also an injection by a faulty peer, keeps all invariants of all replicas |
| `Invariants.RunOk` | pbft/pbft.cpp:226-277 | all invariants hold in every state of every run |
| `Views.NewviewRules` | pbft/pbft.cpp:1565-1606 | an accepted NEWVIEW moves to its own, later view, makes it valid and replaces no accepted pre-prepare |
| `Views.ViewchangeRules` | pbft/pbft.cpp:1512-1563 | handling a viewchange leaves the view and sends at most one viewchange, for a view above the last one sent |
| `Views.StepRules` | pbft/pbft.cpp:279-298 | what any step may do to the view, to the viewchanges sent and to the votes sent |
| `Runs.AcceptedViewsIncrease` | pbft/pbft.cpp:1197-1238 | each NEWVIEW a replica accepts is for a later view than the ones before |
| `Runs.ViewchangesIncrease` | pbft/pbft.cpp:878-903 | a replica broadcasts at most one VIEWCHANGE for a view, in increasing order |
| `Runs.SilentWhileChangingView` | pbft/pbft.cpp:279-298 | between its VIEWCHANGE and the next NEWVIEW it accepts a replica sends no prepare and no commit |
| `Runs.EnteredView` | pbft/pbft.cpp:1565-1606 | accepting a NEWVIEW in a run leaves the replica in the announced view with the state of the handler |
| `Runs.PreparedAgree` | pbft/pbft.cpp:439-452 | two prepare certificates for one view and sequence are for one request |
| `Runs.CommitsAgreeInView` | pbft/pbft.cpp:439-494 | no two requests are committed for one view and sequence in any run with n = 3f+1 and at most f faulty peers |
| `Runs.StagesAgreeInView` | pbft/operations/pbft_memory_operation.cpp:138-188 | no two correct replicas reach the commit or execute stage for one view and sequence with different hashes |
| `History.FacetIff` | pbft/pbft.cpp:439-494 | in every state of every run a replica holds an operation, its request, its pre-prepare, the prepare or commit of a peer, or its stage, if and only if some step brought that and no checkpoint has dropped the operation since; the steps that bring it are given by the message, the view and the votes held |
| `History.FirstProposalWins` | pbft/pbft.cpp:439-452 | a request is accepted for a view and sequence if and only if it is the first one the replica heard proposed there |
| `History.ProposalShown` | pbft/pbft.cpp:453-460 | the pre-prepare held after an adoption is the one that was adopted |
| `History.DeletedAtCheckpoint` | pbft/pbft.cpp:114-136 | reaching a checkpoint deletes exactly the operations at or below both it and the stable checkpoint, leaves the others as they are and announces it; one that is not new changes nothing |
| `History.RequestsSaved` | pbft/pbft.cpp:1471-1509 | after a valid VIEWCHANGE the operation of every certificate whose request is attached is held with its request; stages and votes stay, and no other operation is touched |
| `Sending.SaidIff` | pbft/pbft.cpp:654-778 | a replica has sent a prepare if and only if it adopted the pre-prepare, a commit if and only if it looked at the operation with request, pre-prepare and 2f+1 prepares, and handed it to its service if and only if it looked at it with 2f+1 commits as well |
| `Sending.SendsAt` | pbft/pbft.cpp:654-778 | each of them in the very step in which that happens for the first time |
| `Sending.ProposesIff` | pbft/pbft.cpp:299-309 | a pre-prepare is sent if and only if the replica leads and gives its next number to a request, or sends a NEWVIEW that proposes it |
| `Asking.FirstViewchangeKept` | pbft/pbft.cpp:1521-1529 | the VIEWCHANGE kept of a peer for a view is the first valid one heard, and there is one if and only if one was heard |
| `Asking.AsksIff` | pbft/pbft.cpp:1531-1536 | a VIEWCHANGE for w is sent if and only if the replica gives up on the view before w or hears the (f+1)-th peer ask for w while its view is valid, and w is above the last one it asked for |
| `Asking.AnnouncesIff` | pbft/pbft.cpp:1538-1562 | a NEWVIEW for w is sent if and only if a valid VIEWCHANGE was heard and w is the least later view that the replica leads and exactly 2f+1 peers have asked for |
| `Asking.ValidityStep` | pbft/pbft.cpp:878-903 | asking makes the view invalid and is remembered, entering makes it valid, and nothing else changes either |
| `Checking.KeptIff` | pbft/pbft.cpp:1131-1175 | a VIEWCHANGE of a peer that has sent none for that view is kept if and only if it is for a later view, its base is the lowest sequence f+1 peers claim in it, or 0, and each proof is a pre-prepare of a peer above the base with the same prepared by 2f+1 peers |
| `Checking.FollowsIff` | pbft/pbft.cpp:1197-1309 | a NEWVIEW is followed if and only if it comes from peer w mod n with such VIEWCHANGEs for w of 2f+1 different peers and the pre-prepares that follow from them |
| `Entering.NewviewFromPrimary` | pbft/pbft.cpp:1200-1211 | a replica comes to view w only by a NEWVIEW for w from peer w mod n, and if that peer is correct it had sent that NEWVIEW itself |
| `Entering.EnteredOnlyIfAsked` | pbft/pbft.cpp:1213-1245 | no view is entered that fewer than f+1 correct peers have asked for |
| `Issuing.NextStep` | pbft/pbft.cpp:299-309 | the next sequence number moves by one for each request given one, and otherwise only when a NEWVIEW is accepted |
| `Issuing.NumbersIncreaseInView` | pbft/pbft.cpp:299-309 | within one view a primary gives each number once, in increasing order |
| `Issuing.NumbersAboveNewview` | pbft/pbft.cpp:1580-1602 | numbers given in a view are above everything the view's NEWVIEW proposed |
| `Issuing.NextAboveStartIff` | pbft/pbft.cpp:1575-1602 | after a valid NEWVIEW the next number is above the checkpoint the view starts from if and only if the NEWVIEW proposes something or its first viewchange has the highest base |
| `Issuing.NumbersAboveStart` | pbft/pbft.cpp:1575-1602 | then every number given in the view is above that checkpoint |
| `LaggingStart.LaggingPrimary` | pbft/pbft.cpp:1575-1581 | for every n a run in which a correct primary enters a view that starts above n and will give number 1 next |
| `MakerChecker.ViewchangeMadeIsValid` | pbft/pbft.cpp:1720-1764 | a viewchange made in a state that keeps the invariants is well formed: f+1 claims of its checkpoint, proofs with 2f+1 matching prepares |
| `MakerChecker.ViewchangeMadeIsComplete` | pbft/operations/pbft_operation_manager.cpp:100-137 | it carries, for every operation prepared above its base, a certificate of that view or later |
| `MakerChecker.ViewchangeMadeIsAuthentic` | pbft/pbft.cpp:1720-1764 | every envelope inside it was sent by the peer it names, if that peer is correct |
| `MakerChecker.NewviewMadeIsValid` | pbft/pbft.cpp:1197-1309 | a NEWVIEW built from 2f+1 valid viewchanges of its view passes at every replica in an earlier view |
| `MakerChecker.NewviewMadeIsValidIff` | pbft/pbft.cpp:1538-1560 | built from the viewchanges of another view, or from too few, it does not |
| `MakerChecker.ReadBack` | pbft/pbft.cpp:1246-1254 | the list of viewchanges read back by sender is the map it was made from |
| `Runs.ViewchangesPass` | pbft/pbft.cpp:1131-1175 | every VIEWCHANGE a correct replica sends in a run passes at every correct replica in a lower view |
| `Runs.ViewchangesComplete` | pbft/pbft.cpp:878-903 | it covers everything the replica ever advanced past prepare above its base, despite garbage collection |
| `Runs.NewviewsPassIff` | pbft/pbft.cpp:1512-1563 | a NEWVIEW a correct replica sends on a viewchange for w passes exactly when w was, with that viewchange saved, the least view the replica could open |
| `NewviewContent.NewPrePreparesSpec` | pbft/pbft.cpp:1370-1437 | the new pre-prepares are exactly base+1 to the highest certified sequence, all in the new view, the first certificate's request where there is one and the null request only where there is none |
| `NewviewContent.BaseSpec` | pbft/pbft.cpp:1377-1383 | the base is the highest checkpoint among the viewchanges |
| `NewviewContent.FilledSpec` | pbft/pbft.cpp:1311-1343 | filling leaves no gap and starts right above the base |
| `NewviewContent.FirstCertificateWins` | pbft/pbft.cpp:1386-1406 | of several certificates for a sequence the first in sender order is proposed again, whatever its view |
| `Agreement.NewviewKeepsCommitted` | pbft/pbft.cpp:1370-1437 | if h is committed at s in view v, all certificates for s are from v, and the correct committers among the senders committed before they sent their VIEWCHANGE, the new pre-prepares start above s or carry h at s |
| `Agreement.CommitsCovered` | pbft/pbft.cpp:878-903 | in a run in which no replica enters a view below the last it asked for, every viewchange covers every commit its sender sends in an earlier view, also later ones |
| `Agreement.CommittedWasPrepared` | pbft/pbft.cpp:713-722 | a committed request has a prepare certificate |
| `Agreement.GuardedIsClosed` | pbft/pbft.cpp:279-298 | if pre-prepares at or below the start of a view were refused, a replica that entered the view by its NEWVIEW never accepts one for such a sequence |
| `Agreement.ReproposesCommitted` | pbft/pbft.cpp:1370-1437 | under those conditions an accepted NEWVIEW for a later view that starts below the sequence proposes the committed request again |
| `Agreement.CommittedAgree` | pbft/pbft.cpp:1565-1606 | no two requests are committed for one sequence in whatever views, under the three stated conditions |
| `Agreement.PostedIsCommitted` | pbft/pbft.cpp:724-778 | what a correct replica hands to its service is committed |
| `Agreement.ServicesAgree` | pbft/pbft.cpp:724-778 | what two correct replicas hand to their services for one sequence is the same request, under the same conditions |
| `Posting.ExecutedWasPosted` | pbft/pbft.cpp:724-778 | in every run an operation that is in the execute stage at a correct replica was handed to its service |
| `Replication.AlwaysSound` | pbft/database_pbft_service.cpp:182-223 | in a history in which each transferred state was served by the service of a correct replica, every transferred state is the fold of the agreed log |
| `Replication.DatabasesAgree` | pbft/pbft_service_base.hpp:32-65 | two correct replicas that have executed the same number of operations hold the same database, whatever the order, duplicates, gaps and transfers on each side, under the same conditions |
| `NormalCase.RequestIsExecuted` | pbft/pbft.cpp:439-494 | in the smallest swarm a request goes through pre-prepare, prepare and commit to the service, so the safety results are not about empty runs |
| `NormalCase.NextViewIsEntered` | pbft/pbft.cpp:1512-1606 | in the smallest swarm a failure leads through VIEWCHANGE and NEWVIEW into the next view |
| `CheckpointSafety.BoundNeverRegresses` | pbft/pbft.cpp:131-135 | the deletion bound, the lower of stable and local checkpoint, never decreases over a run |
| `CheckpointSafety.StableStaysWhileLocalKeepsUp` | pbft/pbft_checkpoint_manager.cpp:110-163 | the stable checkpoint does not move back in a step from a state where the local one is at or above it |
| `CheckpointSafety.StableIsAttested` | pbft/pbft_checkpoint_manager.cpp:165-256 | every stable checkpoint but the initial one has claims of the same sequence and hash from f+1 peers, one of them correct |
| `CheckpointSafety.StableCanRegressIff` | pbft/pbft_checkpoint_manager.cpp:122-126 | in every state of every run: some claims the replica may still hear, none forged, move its stable checkpoint back if and only if f+1 peers can claim one checkpoint from the local up to, not including, the stable one |
| `CheckpointSafety.AttestableIff` | pbft/pbft_checkpoint_manager.cpp:165-181 | with f faulty peers they can exactly for a checkpoint that a correct peer has claimed |
| `CheckpointRuns.StableRegresses` | pbft/pbft_checkpoint_manager.cpp:122-163 | a run in which a correct replica hears the claims of 200 before those of 100, and its stable checkpoint goes from 200 to 100 |
| `Claims.ClaimRecorded` | pbft/pbft_checkpoint_manager.cpp:110-256 | a claim is ignored exactly if it is below the local checkpoint or against the stable one; otherwise it is added, also to a checkpoint that is stable already, which becomes stable exactly with f+1 claims of peers, and only then are claims of others dropped, those not newer |
| `Claims.ClaimHeard` | pbft/pbft_checkpoint_manager.cpp:110-163 | in every run hearing a claim, of a peer or not, does that and changes nothing else |
| `Claims.ViewchangeBringsCheckpoint` | pbft/pbft.cpp:1439-1454 | hearing a VIEWCHANGE of a correct peer brings the stable checkpoint to that peer's, unless the local one is beyond |
| `Claims.NewviewBringsCheckpoint` | pbft/pbft.cpp:1573-1578 | so does entering a view by a NEWVIEW whose first VIEWCHANGE is of a correct peer |
| `Disagreement.UndisciplinedDisagree` | pbft/pbft.cpp:1197-1238 | a run with two requests committed for one sequence and handed to the services of two correct replicas that keeps the other two conditions: a replica enters a view below one it asked for |
| `Disagreement.OlderNewviewAccepted` | pbft/pbft.cpp:1197-1238 | the step of it at which a NEWVIEW for a view below the last one asked for is accepted |
| `Disagreement.UncoveredCommit` | pbft/pbft.cpp:878-903 | in it a correct replica commits to something its viewchange for a later view does not cover |
| `Disagreement.EarlierCertificateDisagree` | pbft/pbft.cpp:1386-1406 | a run with two requests committed for one sequence and handed to the services of two correct replicas that keeps the other two conditions: a NEWVIEW re-proposes the certificate of an earlier view |
| `Disagreement.LaterCertificateLoses` | pbft/pbft.cpp:1403-1406 | the step of it at which such a NEWVIEW is accepted |
| `LowWater.LowPreprepareDisagree` | pbft/pbft.cpp:279-298 | for every n a run with two requests committed for sequence n and handed to the services of two correct replicas that keeps the other two conditions: a pre-prepare at the checkpoint its view starts from |
| `Disagreement.ConditionsCanHold` | pbft/pbft.cpp:1512-1606 | a run through two changes of view, with commits in two views, that keeps all three conditions |
| `Disagreement.MisdirectedNewview` | pbft/pbft.cpp:1538-1560 | a run in which a correct replica sends a NEWVIEW that no replica in any view accepts |
| `Exactness.CommitsAlikeIff` | pbft/pbft.cpp:1197-1606 | all runs that keep the chosen ones of the three conditions commit one request for each sequence if and only if all three are chosen |
| `Exactness.ServicesAlikeIff` | pbft/pbft.cpp:724-778 | the same for what correct replicas hand to their services |
| `Exactness.DatabasesAlikeIff` | pbft/pbft_service_base.hpp:32-65 | the same for the databases of replicas that have executed equally much, if the first request can be told from the database |
| `CheckpointManager.Manager.constructor` | pbft/pbft_checkpoint_manager.cpp:29-40 | starts at the initial checkpoint with no claims |
| `CheckpointManager.Manager.LocalCheckpointReached` | pbft/pbft_checkpoint_manager.cpp:65-78 | moves the local checkpoint forward only; anything else is an error that changes nothing |
| `CheckpointManager.Manager.HandleCheckpointMessage` | pbft/pbft_checkpoint_manager.cpp:110-163 | records the claim as specified |
| `CheckpointManager.Manager.CountAttestants` | pbft/pbft_checkpoint_manager.cpp:170-181 | counts the claims that come from peers |
| `CheckpointManager.Manager.MaybeStabilizeCheckpoint` | pbft/pbft_checkpoint_manager.cpp:165-199 | the checkpoint becomes stable exactly with f+1 peer claims |
| `CheckpointManager.Manager.StabilizeCheckpoint` | pbft/pbft_checkpoint_manager.cpp:201-256 | adopts the claims as proof and erases claims that are not newer |
| `Validation.ClaimsByCheckpoint` | pbft/pbft.cpp:1044-1060 | groups the claims of peers by checkpoint |
| `Validation.AttestedCheckpoints` | pbft/pbft.cpp:1062-1068 | keeps exactly the checkpoints with f+1 peer claims |
| `Validation.IsValidPreparedProof` | pbft/pbft.cpp:1070-1129 | true exactly for a peer's pre-prepare above the base with matching prepares of 2f+1 peers |
| `Validation.IsValidViewchangeMessage` | pbft/pbft.cpp:1131-1175 | true exactly for a later view, the lowest attested checkpoint as base, and valid proofs |
| `Validation.HighestBase` | pbft/pbft.cpp:1377-1383 | the highest base, which BaseSpec shows to be the maximum |
| `Validation.ChooseRequests` | pbft/pbft.cpp:1385-1433 | the first certificate for each sequence above the base |
| `Validation.FillInMissing` | pbft/pbft.cpp:1311-1343 | null requests for the gaps |
| `Validation.BuildNewviewMessage` | pbft/pbft.cpp:1370-1437 | the message whose content NewPrePreparesSpec describes |
| `Validation.CountSenders` | pbft/pbft.cpp:1240-1244 | as many senders as viewchanges exactly when no sender occurs twice |
| `Validation.IsValidNewviewMessage` | pbft/pbft.cpp:1197-1309 | true exactly for the primary's message with 2f+1 valid viewchanges of distinct senders and the pre-prepares they imply |
| `Node.MakeViewchange` | pbft/pbft.cpp:1720-1764 | the stable proof and one proof for each sequence prepared above the base, in sequence order |
| `Node.Pbft.constructor` | pbft/pbft.cpp:36-69 | the initial state of a replica |
| `Node.Pbft.MaybeAdvanceOperationState` | pbft/pbft.cpp:654-666 | commit at 2f+1 prepares with pre-prepare and request, execute at 2f+1 commits |
| `Node.Pbft.HandlePreprepare` | pbft/pbft.cpp:439-474 | rejects a conflicting pre-prepare, otherwise accepts, prepares and advances |
| `Node.Pbft.HandleVote` | pbft/pbft.cpp:476-494 | records the vote and advances |
| `Node.Pbft.InitiateViewchange` | pbft/pbft.cpp:878-903 | only above the last view sent; invalidates the view and sends a viewchange of the current state |
| `Node.Pbft.SaveCheckpoint` | pbft/pbft.cpp:1439-1454 | records the claims of a viewchange in order |
| `Node.Pbft.SaveAllRequests` | pbft/pbft.cpp:1471-1509 | the loop keeps the attached requests that a proof names, as RequestsSaved says |
| `Node.Pbft.HandleViewchange` | pbft/pbft.cpp:1512-1563 | saves, joins at f+1, announces at 2f+1 |
| `Node.Pbft.SaveViewchange` | pbft/pbft.cpp:1521-1529 | keeps the requests, the first viewchange of each sender and view, and the checkpoint claims |
| `Node.Pbft.AnnounceView` | pbft/pbft.cpp:1538-1562 | a NEWVIEW for the least view this replica can open |
| `Node.Pbft.HandleNewview` | pbft/pbft.cpp:1565-1606 | enters the view of a valid NEWVIEW, ignores any other |
| `Node.Pbft.ProcessPreprepares` | pbft/pbft.cpp:1592-1602 | handles the pre-prepares one after the other |
| `Node.Pbft.HandleRequest` | pbft/pbft.cpp:299-309 | the primary pre-prepares the request under its next number |
| `Node.Pbft.HandleExecuted` | pbft/pbft.cpp:114-136 | announces the checkpoint and deletes up to the safe bound, as DeletedAtCheckpoint says |
| `Node.Pbft.HandleMessage` | pbft/pbft.cpp:226-298 | drops outsiders, other views and votes in an invalid view, dispatches the rest |
| `OperationClasses.MemoryOperation.constructor` | pbft/operations/pbft_memory_operation.cpp:22-25 | nothing seen yet |
| `OperationClasses.MemoryOperation.RecordRequest` | pbft/operations/pbft_memory_operation.cpp:78-108 | keeps a database or internal request, ignores anything else |
| `OperationClasses.MemoryOperation.RecordPbftMsg` | pbft/operations/pbft_memory_operation.cpp:110-130 | one vote for each sender; other messages are an error |
| `OperationClasses.MemoryOperation.IsReadyForCommit` | pbft/operations/pbft_memory_operation.cpp:138-143 | request, pre-prepare and 2f+1 distinct prepares |
| `OperationClasses.MemoryOperation.IsReadyForExecute` | pbft/operations/pbft_memory_operation.cpp:145-150 | prepared and 2f+1 distinct commits |
| `OperationClasses.MemoryOperation.AdvanceOperationStage` | pbft/operations/pbft_memory_operation.cpp:164-188 | stages in order, each with its quorum; anything else is an error that changes nothing |
| `OperationClasses.OperationManager.FindOrConstruct` | pbft/operations/pbft_operation_manager.cpp:33-63 | one operation for each key, constructed on first use |
| `OperationClasses.OperationManager.DeleteOperationsUntil` | pbft/operations/pbft_operation_manager.cpp:71-98 | exactly the operations above the bound remain in memory; with storage, exactly the entries of operations below the bound go there |
| `OperationClasses.OperationManager.PreparedOperationsSince` | pbft/operations/pbft_operation_manager.cpp:100-137 | for each sequence above the bound with a prepared operation, the one of the highest view |
| `OperationClasses.StoredOperation.constructor` | pbft/operations/pbft_persistent_operation.cpp:76-94 | a stored stage is left as it is, otherwise the first stage is written |
| `OperationClasses.StoredOperation.RecordPbftMsg` | pbft/operations/pbft_persistent_operation.cpp:106-131 | the first message of a sender is stored; a duplicate is no error |
| `OperationClasses.StoredOperation.CountVotes` | pbft/operations/pbft_persistent_operation.cpp:195-209 | the number of keys in the range scan |
| `OperationClasses.StoredOperation.RecordRequest` | pbft/operations/pbft_persistent_operation.cpp:211-239 | stored once, if it is small enough |
| `OperationClasses.StoredOperation.HasRequest` | pbft/operations/pbft_persistent_operation.cpp:241-273 | the cached answer is the stored one |
| `OperationClasses.StoredOperation.IsReadyForCommit` | pbft/operations/pbft_persistent_operation.cpp:195-201 | the answer computed from the scans |
| `OperationClasses.StoredOperation.GetStage` | pbft/operations/pbft_persistent_operation.cpp:133-142 | the stored stage |
| `OperationClasses.StoredOperation.AdvanceOperationStage` | pbft/operations/pbft_persistent_operation.cpp:144-173 | stages in order, each with its quorum, from storage alone |
| `OperationClasses.PreparedOperationsInRange` | pbft/operations/pbft_persistent_operation.cpp:364-404 | lists exactly the operations that stage keys in the range stand for |
| `OperationClasses.StoredOperationsSince` | pbft/operations/pbft_operation_manager.cpp:118-124 | from storage that stands for a set of operations: for each sequence above the bound the prepared operation of the highest view among those whose hash does not hide the mark, and no exception |
| `Service.AlwaysAPrefix` | pbft/database_pbft_service.cpp:49-79 | after every order, duplication and gap pattern of calls and transfers: the database is the fold of the log below next, entries were executed at most once and in order, a snapshot is the fold up to its checkpoint |
| `Service.NextIsLeastUncovered` | pbft/database_pbft_service.cpp:106-172 | next is the least sequence neither delivered nor covered by a transfer |
| `Service.OrderDoesNotMatter` | pbft/pbft_service_base.hpp:32-65 | histories that account for the same sequences leave the same database |
| `Service.WithoutTransferAllExecuted` | pbft/pbft_service_base.hpp:46-48 | without transfers exactly 1 to next-1 were executed, once each, in order |
| `Service.ProcessTakesRun` | pbft/database_pbft_service.cpp:106-172 | processing takes the unbroken run of entries from next on and nothing else |
| `Snapshots.SnapshotIsNewest` | pbft/database_pbft_service.cpp:151-157 | over every history the service holds the snapshot of the last checkpoint that was due when it was executed and could be saved, or of the last transfer, whichever came later, and it is the fold up to there; none if there was neither |
| `Snapshots.SavedIsServed` | pbft/database_pbft_service.cpp:182-223 | so a saved checkpoint, or a transferred state, is what is served until the next one |
| `Backlog.BacklogIff` | pbft/database_pbft_service.cpp:49-79 | over every history a sequence is in the backlog if and only if it was delivered and next has not passed it since, by execution or by a transfer |
| `Service.DatabaseService.constructor` | pbft/database_pbft_service.cpp:28-40 | starts at sequence 1 with an empty backlog |
| `Service.DatabaseService.ProcessAwaitingOperations` | pbft/database_pbft_service.cpp:106-172 | the loop computes the specified state, snapshots included |
| `Service.DatabaseService.ApplyOperation` | pbft/database_pbft_service.cpp:49-79 | the operation is in the backlog or executed when the call returns; duplicates change nothing |
| `Service.DatabaseService.GetServiceState` | pbft/database_pbft_service.cpp:182-191 | a served state is the fold up to the sequence asked for |
| `Service.DatabaseService.SetServiceState` | pbft/database_pbft_service.cpp:193-223 | a state that is not newer changes nothing; a newer one replaces the database and skips the backlog it covers |
| `Service.DatabaseService.SaveServiceStateAt` | pbft/database_pbft_service.cpp:225-229 | sets the next checkpoint |
| `Strings.RangeIsPrefix` | pbft/operations/pbft_persistent_operation.cpp:412-426 | from p up to p with its last character increased lie exactly the strings that start with p |
| `Strings.PadValue` | pbft/operations/pbft_persistent_operation.cpp:34-36 | every 64-bit number is written with 20 digits and reads back |
| `Strings.PadOrder` | pbft/operations/pbft_persistent_operation.cpp:34-36 | string order of padded numbers is number order, whatever follows |
| `MemStorage.InsertExact` | storage/mem_storage.cpp:50-54 | creating an entry keeps the counter equal to the bytes modulo 2^32 |
| `MemStorage.ReplaceExact` | storage/mem_storage.cpp:113-115 | so does updating |
| `MemStorage.EraseExact` | storage/mem_storage.cpp:140-141 | so does removing |
| `MemStorage.CounterIsBytesIff` | storage/mem_storage.hpp:64 | the counter is the number of bytes if and only if that is below 2^32 |
| `MemStorage.ListingIsUnique` | storage/mem_storage.cpp:306-330 | a set of keys has one listing in key order, as long as the set is large |
| `MemStorage.MemStore.constructor` | storage/mem_storage.hpp:63-64 | empty |
| `MemStorage.MemStore.Create` | storage/mem_storage.cpp:25-61 | size limits and duplicates are refused, otherwise exactly one entry is added; the counter stays exact |
| `MemStorage.MemStore.Read` | storage/mem_storage.cpp:64-84 | the stored value or nothing |
| `MemStorage.MemStore.Update` | storage/mem_storage.cpp:87-118 | exactly one value is replaced; the counter stays exact |
| `MemStorage.MemStore.Remove` | storage/mem_storage.cpp:121-143 | exactly one entry goes; the counter stays exact |
| `MemStorage.MemStore.RemoveDatabase` | storage/mem_storage.cpp:217-230 | exactly one database goes |
| `MemStorage.MemStore.GetSize` | storage/mem_storage.cpp:176-190 | number of keys, and bytes modulo 2^32 |
| `MemStorage.MemStore.GetKeySize` | storage/mem_storage.cpp:193-214 | bytes of key and value |
| `MemStorage.MemStore.RemoveRange` | storage/mem_storage.cpp:287-303 | says whether the loop of the code ends, which is exactly when no stored key lies from last up to first; then exactly the entries of the range go; the counter stays exact |
| `MemStorage.MemStore.DoIf` | storage/mem_storage.cpp:306-330 | visits exactly the matching keys of the range in key order |
| `MemStorage.MemStore.GetKeysIf` | storage/mem_storage.cpp:348-359 | exactly the matching keys of the range, in key order |
| `MemStorage.MemStore.ReadIf` | storage/mem_storage.cpp:333-345 | exactly the matching entries of the range, in key order |
| `PersistentState.UnescapeInvertsEscape` | pbft/pbft_persistent_state.cpp:24-67 | unescape undoes escape for every string |
| `PersistentState.EscapeInvertsUnescape` | pbft/pbft_persistent_state.cpp:37-67 | whatever unescapes was an escape of the result |
| `PersistentState.SplitsBack` | pbft/pbft_persistent_state.hpp:286-309 | extract_subkeys recovers both subkeys, whatever they contain |
| `PersistentState.KeysInjective` | pbft/pbft_persistent_state.hpp:317-326 | no two variables share a storage key, for any number of subkeys |
| `PersistentState.ScanFindsContainer` | pbft/pbft_persistent_state.hpp:223-225 | the range scan for a name finds exactly the keys of the container of that name |
| `PersistentState.EscapeText` | pbft/pbft_persistent_state.cpp:24-35 | the loop computes the escape |
| `PersistentState.UnescapeText` | pbft/pbft_persistent_state.cpp:37-67 | the loop computes the unescape or fails on a bare slash |
| `PersistentState.ExtractSubkeys` | pbft/pbft_persistent_state.hpp:286-309 | the loop finds the separator that is not an escape |
| `PersistentVars.LogKeyReadsBackIff` | pbft/pbft_persistent_state.cpp:83-114 | a log key is read back if and only if neither number is zero |
| `PersistentVars.OperationKeyReadsBackIff` | pbft/pbft_persistent_state.cpp:116-152 | an operation key is read back if and only if neither number is zero and the hash is not empty |
| `PersistentVars.CheckpointReadsBack` | pbft/pbft_persistent_state.cpp:154-186 | a checkpoint is always read back |
| `PersistentVars.Open` | pbft/pbft_persistent_state.hpp:87-129 | a stored value wins over the default; members of a container that was not initialized are refused |
| `PersistentVars.Persistent.Assign` | pbft/pbft_persistent_state.hpp:141-163 | assignment writes through to the one key |
| `PersistentVars.Persistent.Destroy` | pbft/pbft_persistent_state.hpp:165-178 | removes the one key |
| `PersistentVars.Reload` | pbft/pbft_persistent_state.hpp:238-261 | rebuilds exactly the container that was written, when subkeys are read in the order they were written |
| `OperationKeys.PrefixReadsBack` | pbft/operations/pbft_persistent_operation.cpp:31-68 | parse_prefix undoes generate_prefix for every hash |
| `OperationKeys.ParseReadsBackIff` | pbft/operations/pbft_persistent_operation.cpp:54-68 | generate_prefix undoes parse_prefix exactly where both numbers have 20 digits |
| `OperationKeys.SequenceOrder` | pbft/operations/pbft_persistent_operation.cpp:31-45 | string order of keys is the order of sequences |
| `OperationKeys.SequenceRange` | pbft/operations/pbft_persistent_operation.cpp:370-372 | the scan between two sequences hits exactly the operations between |
| `OperationKeys.IncrementScansIff` | pbft/operations/pbft_persistent_operation.cpp:412-426 | the scan up to the incremented prefix finds exactly the extensions of the prefix unless its last character is 127 or 255 |
| `OperationKeys.ItemKeyInjective` | pbft/operations/pbft_persistent_operation.cpp:39-45 | different things are stored under different keys |
| `OperationKeys.TypedScan` | pbft/operations/pbft_persistent_operation.cpp:321-325 | the scan over a typed prefix hits exactly that operation's votes of that type |
| `PersistentOperation.OneKeyPerSender` | pbft/operations/pbft_persistent_operation.cpp:195-209 | the scan returns one key for each distinct sender |
| `PersistentOperation.SameAnswers` | pbft/operations/pbft_persistent_operation.cpp:175-209 | stage, preprepared, prepared, request, ready-for-commit, ready-for-execute and every stage move are answered as in memory |
| `PersistentOperation.AlwaysRefines` | pbft/operations/pbft_persistent_operation.cpp:106-173 | after every sequence of well-formed, size-bounded calls, deletions among them, storage stands for the operations that were not deleted below a sequence |
| `StoredHistory.RecordedIff` | pbft/operations/pbft_operation_manager.cpp:71-98 | after any calls memory and storage each know of an operation exactly what was recorded about it since its last deletion there |
| `StoredHistory.StoredVoteIff` | pbft/operations/pbft_persistent_operation.cpp:106-173 | the key of a prepare or commit is in storage if and only if it was recorded and its operation not deleted since |
| `PersistentOperation.SameAboveDeleted` | pbft/operations/pbft_operation_manager.cpp:71-98 | above every deleted sequence these are the operations of memory |
| `PersistentOperation.AlwaysSameAnswers` | pbft/operations/pbft_persistent_operation.cpp:175-209 | so both kinds of operation give the same answers in every run: above what was deleted, and for every operation held if none returns that memory alone has dropped |
| `PersistentOperation.RemovedRefines` | pbft/operations/pbft_persistent_operation.cpp:406-410 | after a deletion storage stands for the operations from that sequence on |
| `PersistentOperation.RemovedRefinesIff` | pbft/operations/pbft_operation_manager.cpp:71-98 | it stands for what memory keeps if and only if there was no operation at the sequence |
| `PersistentOperation.ReturnedStageIff` | pbft/operations/pbft_persistent_operation.cpp:76-94 | an operation that is constructed again is in the first stage for storage too if and only if it was never advanced |
| `PersistentOperation.ReturnedAnswersIff` | pbft/operations/pbft_persistent_operation.cpp:76-94 | an operation that is constructed again gives all answers of a new one in storage if and only if it was never advanced and had neither pre-prepare nor request |
| `PersistentOperation.ConstructedAlikeIff` | pbft/operations/pbft_persistent_operation.cpp:76-94 | in every run: an operation that memory does not hold is new to both when it is constructed if and only if storage kept nothing of it |
| `PersistentOperation.ReturnedDiffers` | pbft/operations/pbft_operation_manager.cpp:71-98 | for every operation a run with its deletion and return after which storage and memory answer differently |
| `PersistentOperation.RequestRecordedIff` | pbft/operations/pbft_persistent_operation.cpp:211-239 | the two agree on a first request if and only if being a request and being small enough coincide |
| `Rehydration.CutPrefixIff` | pbft/operations/pbft_persistent_operation.cpp:380-383 | the prefix is recovered if and only if "_stage" does not occur in the hash with its underscore |
| `Rehydration.RehydratesExactly` | pbft/operations/pbft_persistent_operation.cpp:364-404 | after every run of calls the scan above what was deleted finds exactly the prepared operations of memory in the range whose hash does not hide the mark |
| `Rehydration.FoundIff` | pbft/operations/pbft_persistent_operation.cpp:364-404 | the same for any storage and the operations it stands for |
| `Rehydration.LostOperation` | pbft/operations/pbft_persistent_operation.cpp:380-384 | an operation whose hash hides the mark is never found again, whatever else is stored |
| `Rehydration.HidingHash` | crypto/crypto.cpp:268-291 | there are such hashes of 32 bytes: the mark in any place |
| `Signing.DeterministicSerialize` | crypto/crypto.cpp:97-117 | the loop computes the framed tokens; an envelope without payload is an error |
| `Signing.SerializationIsInjective` | crypto/crypto.cpp:97-117 | equal bytes if and only if sender, payload with its kind and timestamp are equal |
| `Signing.SerializationReadsBack` | crypto/crypto.cpp:97-117 | read frame by frame the bytes give sender, kind of payload, payload and timestamp in this order |
| `Quota.Shortage` | policy/random.cpp:37-38 | with an exact counter the wrapping subtractions give the true shortage; the volatile-ttl policy asks for the value of an update on top |
| `Quota.RoomAfter` | crud/crud.cpp:1301-1315 | freeing the shortage makes room |
| `Quota.AdmissionIsRightIff` | crud/crud.cpp:1294-1304 | the size test is right for all limits and entries if and only if the database is below 4 GiB |
| `Eviction.RandomKeysToEvict` | policy/random.cpp:21-79 | frees enough without the spared key, for every sequence of draws; returns nothing exactly when nothing is needed or all other entries together are too small |
| `VolatileTtl.FilterTtls` | policy/volatile_ttl.cpp:141-165 | exactly the entries that can be read, are for this database and not for the spared key |
| `VolatileTtl.GetTtlItems` | policy/volatile_ttl.cpp:94-138 | key and value size of each; an entry without its value or its expiry is blank |
| `VolatileTtl.SortBySize` | policy/volatile_ttl.cpp:49-53 | the same items, largest values first |
| `VolatileTtl.TakeItems` | policy/volatile_ttl.cpp:70-81 | takes items from the top until enough is free, and no more |
| `VolatileTtl.TopIsMost` | policy/volatile_ttl.cpp:49-53 | no other keys, as many as the first items, have larger values |
| `VolatileTtl.VolatileKeysToEvict` | policy/volatile_ttl.cpp:29-91 | evicts only keys of the database with a time to live, not the spared one, or the empty key: the keys of the largest items that count as enough, one item for each text; returns nothing exactly when there are no texts or all of them together are too small; if no two texts read alike it frees enough with as few keys as possible |
| `Crud.WithinLimit` | crud/crud.cpp:202-257 | a write that is carried out leaves the stored bytes within the limit, if the counter is exact and, under volatile-ttl, no two time-to-live entries of the database read alike |
| `Crud.Handlers.DoEviction` | crud/crud.cpp:1358-1380 | removes exactly the keys the policy chose; says no exactly when the policy finds too little; a nonempty updated key is never among them |
| `Crud.Handlers.MakeRoom` | crud/crud.cpp:234-242 | evicts exactly when the entry seems too large for what is free, and fails exactly when the policy does |
| `Crud.Handlers.UpdateExpirationEntry` | crud/crud.cpp:1110-1140 | sets or removes one time-to-live entry and no other, and says whether the code would throw |
| `Crud.Handlers.ExceedsAvailableSpace` | crud/crud.cpp:1292-1318 | the comparison in 64-bit arithmetic |
| `Crud.Handlers.HandleCreate` | crud/crud.cpp:202-257 | each reply exactly under its condition, in the order of the code: too large, expired, no room and none to make, refused by storage; stored if and only if none of these; every database afterwards, also that of the time-to-live entries |
| `Crud.Handlers.HandleUpdate` | crud/crud.cpp:304-360 | the same for updates, which are never too large; a nonempty updated key is never evicted |
| `Limits.GenuineStep` | crud/crud.cpp:1110-1140 | every step but a write to a database called "TTL" keeps the time-to-live entries genuine: each is the text the code generates for what it reads as |
| `Limits.AlwaysGenuine` | crud/crud.cpp:678-718 | so they are in every run without a database of that name |
| `Limits.AlwaysWithinLimit` | crud/crud.cpp:304-360 | over every run of the store, with its creates, updates, deletes, expiries and limit changes: while the limit is below 4 GiB and, under volatile-ttl, no two time-to-live entries of the database read alike, every entry that is stored leaves the bytes within the limit in force |
| `LimitExactness.LimitKeptIff` | crud/crud.cpp:1292-1318 | every run under a given limit keeps it if and only if it is below 4 GiB and, under volatile-ttl, there may be no database called "TTL" (or the limit is one byte) |
| `LimitExactness.PassedByAliases` | policy/volatile_ttl.cpp:141-165 | for every volatile-ttl limit from two bytes to 4 GiB a run with a database called "TTL" passes it |
| `LimitExactness.FreedTooLittle` | policy/volatile_ttl.cpp:70-81 | two texts that read alike make the policy free 61 bytes where 100 are needed, and 139 bytes are stored under a limit of 100 |
| `SwarmLimit.ResizeKeepsLimitIff` | crud/crud.cpp:1264-1291 | an accepted create or update keeps the sum of sizes within the swarm limit if and only if the new sum does not wrap |
| `SwarmLimit.SwarmLimitKeptIff` | crud/crud.cpp:678-802 | over a run of create, update, delete and writer changes the sum of sizes stays within the limit and no database is unlimited if and only if no accepted size makes the sum wrap |
| `SwarmLimit.AlwaysWithinSwarmLimit` | crud/crud.cpp:678-802 | so it does for sizes that do not wrap when added to the limit |
| `SwarmLimit.SafeSizesIff` | crud/crud.cpp:1264-1291 | every run of requests with sizes up to a bound keeps the swarm limit if and only if limit and bound add up to less than 2^64 |
| `Ownership.FactIff` | crud/crud.cpp:678-802 | over every run of requests a database has an owner, a size or a set of writers if and only if an accepted request said so and none has changed it since: whoever creates it owns it, and deleting it ends everything |
| `Ownership.OnlyOwnerChanges` | crud/crud.cpp:721-802 | whatever is accepted for a database comes from the one who created it |
| `Ownership.SizeAcceptedIff` | crud/crud.cpp:1264-1291 | a size is accepted if and only if the caller may set it, it is not zero and the new sum is within the limit, as long as the sum does not wrap |
| `Ownership.ShrinkAccepted` | crud/crud.cpp:745-758 | the owner may shrink a database whatever the sum of sizes is |
| `SwarmLimit.OversizeDatabaseAccepted` | crud/crud.cpp:1279-1282 | a size near 2^64 is accepted and breaks the limit |
| `SwarmLimit.Manager.GetSwarmStorageUsage` | crud/crud.cpp:1322-1355 | the sum of all maximum sizes modulo 2^64 |
| `SwarmLimit.Manager.HandleCreateDb` | crud/crud.cpp:678-718 | owner, duplicate, unlimited and full databases are refused in this order |
| `SwarmLimit.Manager.HandleUpdateDb` | crud/crud.cpp:721-769 | the sum is looked at only when the database grows |
| `SwarmLimit.Manager.HandleDeleteDb` | crud/crud.cpp:772-802 | exactly that database goes |
| `Admission.RecentIsExact` | pbft/pbft.cpp:1695-1703 | the table remembers exactly the assigned requests newer than the last pruning bound |
| `Admission.AdmittedIff` | pbft/pbft.cpp:333-400 | a request gets a number if and only if it is at most an hour from the clock, its body is small, this peer leads, the number is within the window, the signature verifies or the sender is anonymous, and it was not numbered before as far as that is remembered |
| `Admission.DuplicateAssignedIff` | pbft/pbft.cpp:333-400 | an assigned request gets another number if and only if it passes all other tests, has exactly the maximum age and a pruning fell in the same millisecond |
| `Admission.NeverAssignedTwice` | pbft/pbft.cpp:333-400 | with a clock that does not go back no request gets two numbers while its timestamp is strictly above the age limit |
| `Admission.NumbersIncrease` | pbft/pbft.cpp:299-309 | later assignments get larger numbers |
| `Admission.AssignedTwiceAtTheEdge` | pbft/pbft.cpp:1701-1702 | two presentations at the age limit that both get a number |
| `Admission.Primary.AlreadySeenRequest` | pbft/pbft.cpp:1705-1718 | true exactly if the sender and hash are remembered under the timestamp |
| `Admission.Primary.HandleRequest` | pbft/pbft.cpp:333-400 | the number given, and the table afterwards |

## Left out

- Adopting a view or a state from SET_STATE in the protocol layer (pbft/pbft.cpp:545-590): the code compares nothing there, so it is kept out of the step system.
- Dynamic peers, leaving peers and configuration requests: the peer list is fixed.
- Sending over sockets, timers, sessions and error responses: sending adds to the set of envelopes, a failure is a step.
- Signing and hashing themselves, protobuf and JSON encodings: signatures are the authenticity of envelopes, encodings are functions with the stated sizes.
- storage/rocksdb_storage.cpp: the in-memory store is the reference.
- Restart in the middle of the backlog, where entries without their operation are dropped: the service is modelled for one process lifetime.
- A snapshot that fails to load after it has partly overwritten the store: loading succeeds or changes nothing.
- The reload of partial_checkpoint_proofs, which is read with its subkeys in the other order (pbft/pbft_checkpoint_manager.cpp:152-158 and 309).
- Reloading a container with one subkey: the same scan without the split.
- Reading numbers with signs, spaces or trailing text, which the library conversions would accept: only digits are numbers here.
- Empty operation records that build_newview creates while it looks up requests to attach: they hold no votes.
- Values read from held operations are copies: the shared pointers to operations, and so aliasing between the manager and its callers, are not modelled.
- The order of hash tables and of equal elements in std::sort: results hold for every order.
- When an entry expires: that a time-to-live entry is dropped is an event that may happen at any time. The JSON text of such an entry is a pair of functions, and its expiry time, which the policy converts and does not use, is not converted.
- A time-to-live text whose key is no JSON string, for which the conversion in the policy throws: it counts as one that cannot be read.
- The limits of databases called "TTL" and "PERMS" themselves, in which the code writes entries of its own without looking at a limit.
- A database called "PERMS" in the swarm limit: it can be created, and its entries are permission records (crud/crud.cpp:689 and 238), so writing entries there can raise the sum of sizes without any request that SwarmLimit models.
- Signatures of the viewchanges inside a NEWVIEW: the code does not verify them (pbft/pbft.cpp:1219-1238), the model assumes them authentic.
- Permissions of writers, reads, subscriptions and status requests: they do not touch the modelled properties.
- Progress: that a request is eventually executed, or a view change eventually succeeds, is not claimed.
- A state transferred from a faulty peer: the code does not compare it with the checkpoint hash, so transfers are from correct replicas.
- Agreement.CommittedAgree: stated under Disciplined, AllLatest and Guarded, because the code keeps none of them: UndisciplinedDisagree, EarlierCertificateDisagree and LowPreprepareDisagree show a run without each. CommitsAlikeIff is the exact form over all runs. That the three are necessary for a given run is false, since a run may break them and still agree.
- Agreement.ReproposesCommitted: stated under Disciplined and for a NEWVIEW that picks the latest certificate, for the same reason.
- Agreement.CommitsCovered: stated under Disciplined; UncoveredCommit shows that it is false without.
- Agreement.ServicesAgree: stated under the conditions of CommittedAgree; ServicesAlikeIff is the exact form.
- Replication.DatabasesAgree: stated under the conditions of CommittedAgree; DatabasesAlikeIff is the exact form.
- Crud.WithinLimit: stated for an exact counter and texts that do not read alike; FreedTooLittle shows that it is false without the second.
- Limits.AlwaysWithinLimit: stated under the conditions that LimitKeptIff shows to be exact.
- PersistentOperation.AlwaysSameAnswers: stated above what was deleted, or if no operation returns; ConstructedAlikeIff is exact for one that does.
- SwarmLimit.AlwaysWithinSwarmLimit: stated for sizes that do not wrap when added to the limit; SafeSizesIff is the exact form.
- SwarmLimit.SwarmLimitKeptIff: its condition speaks of the requests that were accepted; SafeSizesIff speaks of the sizes asked for.
