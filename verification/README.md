# Vocdoni: the state database and the voting chain, in Dafny

A model of the core of a Vocdoni node and proofs about it: the versioned hierarchy of Merkle
trees (`statedb/`), the replicated state machine with accounts, processes, votes, keys, rolling
censuses and the node-local vote cache (`vochain/`), the census tree, the snapshot file and the
write batch. `dafny verify dfyconfig.toml` checks all of it.

## How the model is built

**Trees.** A root is a symbolic hash: it determines the leaves below it and nothing else
(`Trees`). The database below a prefix is a grow-only set of stored roots. `Propagation` defines
what a commit pushes up, without an order; `Orders` has every outcome of the depth-first pass;
`Passes` has the pass as the methods with loops over maps in any order, and proves that they end
with one of these outcomes. `Commits`, `Transactions` and `Versions` prove what a commit means for
reads; `StateDB` has the database and its transactions as objects. `Nested` and `Books` prove that
a database, from the empty one through any changes, commits and drops, is a plain nested map.
`Sides` does the same for the unhashed storage beside the trees. `Storage`, `StoredRuns` and
`LedgerStorage` put the state machine into it: through every run of a node the trees hold its
state, and each version has the root that the committed state determines.

**State machine.** `Accounts`, `Payments` and `Voting` are the checks and operations of the
state on values. `Chain` puts them together: delivering a transaction, and the life of a node as
`BeginBlock`, `DeliverTx`, `CheckTx`, `Evict` and `Commit` steps in any order. `Records` and
`Application` are the same operations as objects that are changed in place; each call is proved
to be a step of `Chain`. `Moves` shows that any transaction makes one of seven moves of the voting
state. `Histories` gives every state of a run the deliveries and block ends it was made by.
`PaymentEffects` and `Acceptance` say of every transaction exactly when it is accepted and what it
changes, in their own terms. `MoveLaws`, `Runs`, `LedgerRuns`, `CacheLaws` and `Authority` prove
what holds over every run, and `Witnesses` and `TreeWitnesses` have concrete inputs for what does
not.

**Supporting pieces.** `CensusTree`, `Snapshot` and `Batches`, with `LittleEndian` for numbers in
bytes and `Sums` for sums over maps.

## What is taken as given

- Hashes do not collide: vote identifiers, nullifiers, transaction identifiers, faucet keys and
  tree roots. Protobuf and gob decode what they encode. The database does not fail.
- Prefixes of subtrees are disjoint; a prefix is a pair of a kind of tree and a key.
- Signature recovery, census proofs, zkSNARK proofs, public keys of private keys, process
  identifiers and the storage key of a start block are functions of their arguments (`Env`); every
  theorem holds for all of them. A transaction carries the address its signature recovers to.
- No signature recovers to the burn account (`0xff..ff`). The burn account and the treasurer come
  from the genesis.
- Iterating over the leaves of a tree visits all of them; adding a batch to a tree leaves out
  exactly the keys that exist or come twice, and importing a dump needs an empty tree.
- One transaction of the database is open at a time, and each operation of the state is one step.
- A run-time panic is a rejection: a key slot beyond the list of a process, and a transaction for
  results that carries none.

## What was found not to hold, and when exactly it holds

- An account that sends tokens to itself, or collects its own faucet package, gains the amount:
  both records are loaded before either is stored (`SupplyLaw`, `SelfTransferMints`).
- The check of a token transfer, and of a faucet package, compares a sum that can wrap; then the
  value moves and the fee does not (`SendIsWholeIffNoWrap`, `CollectIsWholeIffNoWrap`;
  `SendHalfApplied`, `CollectHalfApplied`).
- Creating an account with a faucet package of amount or cost zero leaves an empty account behind
  a rejected transaction (`CreationIsWholeIffPayable`; `CreationLeavesAccount`).
- A published key of length zero is counted (`PublishAccounts`, `MoveKeepsAccounts`,
  `EmptyKeySpoilsAccount`; `EmptyKeysCounted`).
- A process that starts no later than the block that creates it never gets its census size
  (`SizedIffStartsLater`; `StartedUnsized`).
- An address that has registered a key can register more with weight zero (`SecondRegistration`;
  `RegistersTwice`).
- The two kinds of rolling census share one field of the process leaf, so with both changed the
  root of a commit depends on map order (`OrderIndependence`, `PassIsOrderFreeIffAgreed`;
  `OrderDecidesRoot`). Only another user of the database can meet this: the state machine takes no
  more than the length of a hash from one of the two kinds (vochain/process.go:19) and never opens
  it, so `DatabaseIsNestedMap` needs no such condition.
- An empty-tree error at an old version can later turn into an answer (`ReadsStayIffSettled`;
  `EmptyTreeTurnsIntoAnswer`).
- A census update between the check and the delivery of a vote makes the lazy check differ
  (`StaleCheckIffSameWeight`; `StaleVoteAccepted`).
- A vote from the cache that was checked in an anonymous process of a dropped block counts beside
  the signer's own vote in a process of the same identifier that is not anonymous
  (`OneVotePerVoter`; `VotesTwice`).
- A key that is registered again in a numbered census no longer verifies against an earlier root
  (`EarlierRootVerifiesIff`; `RegisteredAgainFails`).
- The storage beside the trees is not versioned: a view of an old version reads what was last
  committed there (`SidesAreNotVersioned`).
- Importing a dump into a weighted census does not count its leaves (`ImportLeavesCounter`;
  `ImportCountsNothing`).
- A batch with a limit of one or zero does not bound what is pending (`Batch.Do`).
- A tree of 2^32 bytes or more does not read back from a snapshot (`ImageReadsBackIffSmall`).
- A ready process may be set to results by a status change only before its end block, while
  results themselves need the end block (`AllowedByCheck`); nothing is claimed about timing along
  that edge.

The comment of `AddVote` says that it does not check for an existing vote; the addition to the
vote tree does, and the model follows the code.

## Model

| member | source | states |
|---|---|---|
| `Trees.RootLens` | vochain/state.go:64-173 | The root getters and setters of a leaf: a root that was set is read back, fields of other kinds of trees and the rest of the leaf stay, and setting fails exactly on leaves of another shape. |
| `Propagation.ApplyAllFields` | statedb/treeupdate.go:289-299 | Applying the collected updates of one leaf succeeds when every kind fits, keeps the data of the leaf and gives each field the root of its last update. |
| `Propagation.OrderIndependence` | statedb/treeupdate.go:259-303 | The updates of a leaf give the same leaf in every order if and only if no two of them put different roots into one field (the two kinds of rolling census share a field). |
| `Propagation.LeafOutcome` | statedb/treeupdate.go:289-303 | Whatever order the updates of a leaf were collected in, they succeed exactly if every changed subtree has a place in the leaf, and then yield one leaf, the rewritten one. |
| `Passes.UpdateLeaf` | statedb/treeupdate.go:294-299 | The loop over the updates of a leaf computes their composition and stops at the first that fails. |
| `Passes.UpdateLeaves` | statedb/treeupdate.go:286-303 | For any enumeration of the updated keys the loop succeeds exactly if every changed subtree has a fitting leaf, and then gives each leaf its updates in the order they were collected, touches no other and stores the new tree. |
| `Passes.GatherUpdates` | statedb/treeupdate.go:255-280 | For any enumeration of the open subtrees the recursion fails exactly if one of them fails, and otherwise collects under each leaf key, in some order and once each, the new roots of the subtrees that changed. |
| `Passes.PropagateRoot` | statedb/treeupdate.go:241-307 | The depth-first pass, in any order of subtrees and keys, fails, does nothing or ends with a root exactly when the order-free definition does, and its root is one that some order gives; if changed subtrees agree on the places they share it is that of the definition, and only nodes of open trees are written. |
| `Orders.PassIsOrderFreeIffAgreed` | statedb/treeupdate.go:241-307 | The pass as a whole, over all orders of open subtrees and updated leaves at every depth, ends with one root if and only if at no depth two changed subtrees put different roots into one place; the root of the order-free definition is always one of them (that the methods end with one of them is `Passes.PropagateRoot`). |
| `Propagation.SeparateAgrees` | vochain/state_trees.go:93-137 | Trees whose kinds never share a field agree, whatever changed. |
| `Commits.FinalChild` | statedb/treeupdate.go:241-307 | After propagation a leaf yields for a subtree its new root if the subtree changed, and the root it yielded before otherwise. |
| `Commits.CommitPreservesReads` | statedb/treeupdate.go:241-338 | Commit preserves meaning: along every created path, at any depth, the view at the new main root opens exactly the tree the transaction had there, with its final root, or fails with the same error. |
| `Commits.CommitPreservesLeaves` | statedb/treeview.go:153-205 | The same leaf by leaf: a deep read after commit returns the leaf of the open transaction up to the child roots embedded in it, or the same error. |
| `Commits.UncreatedReads` | statedb/treeview.go:153-183 | Along a path that was never opened for update a read after commit reports an empty tree, or the error the transaction had. |
| `Commits.OpenTreesLinked` | statedb/treeupdate.go:281-306 | After commit every tree that was open has the root that its parent leaf yields. |
| `Commits.CommitPreservesReadsIffCoherent` | statedb/treeupdate.go:241-338 | Reads survive the commit at every path if and only if every open tree that did not change has, at every depth, the root its parent leaf yields. |
| `Transactions.OpenPathOpens` | statedb/treeupdate.go:136-187 | Opening a path level by level succeeds exactly if every level yields a stored root, ends at that tree and otherwise reports the first error. |
| `Transactions.OpeningIsInvisible` | statedb/treeupdate.go:136-187 | Opening subtrees, even if it fails half way, changes no read of the transaction at any path. |
| `Transactions.WriteIsLocal` | statedb/treeupdate.go:120-130 | A write is read back at its path and changes no read elsewhere: not above it, not beside it, not below other leaves. |
| `Transactions.ProcessUpdateKeepsRoots` | vochain/process.go:171-192 | Storing a process again, with other data in its leaf, keeps the child roots the leaf embeds. |
| `Transactions.ApplyKeeps` | statedb/treeupdate.go:111-217 | Every operation of a transaction keeps it sound, and one that keeps the embedded child roots keeps every open tree linked to its parent leaf. |
| `Transactions.LinkedCommits` | statedb/treeupdate.go:241-307 | In a linked transaction propagation cannot fail, and reads are preserved. |
| `Transactions.OpsKeep` | statedb/treeupdate.go:111-217 | The same for every sequence of operations. |
| `Versions.NewVersionReads` | statedb/treeupdate.go:317-338 | For every sequence of operations that keep the embedded child roots, commit succeeds and the new version answers every read, at every depth, as the transaction did just before. |
| `Versions.ReopenReads` | statedb/statedb.go:291-342 | The transaction that begins after a commit reads, at every path and errors included, what the committed one read. |
| `Versions.IdleCommitKeepsRoot` | statedb/treeupdate.go:248-285 | A commit after reads and writes to the unhashed storage only, at any depth, records the root of the last version. |
| `Versions.UntouchedIsClean` | statedb/treeupdate.go:243-285 | Propagation reports nothing to do exactly if no open tree at any depth was written to. |
| `Versions.ReadsStayIffSettled` | statedb/treeview.go:153-183 | A read at a committed root survives everything the database may later gain if and only if it did not fail for want of a tree or a root. |
| `Versions.VersionsAreImmutable` | statedb/statedb.go:220-260 | Committed versions are immutable: after any later transactions, committed or discarded, a version that none of them rewrote has the same root and the same settled reads at every depth. |
| `StateDB.StateDB.constructor` | statedb/statedb.go:211-216 | A new database has no tree, no version and version number zero. |
| `StateDB.StateDB.TreeView` | statedb/statedb.go:382-411 | A view opens at the given root or at that of the last version, and fails if no tree exists or the root is not stored. |
| `StateDB.StateDB.BeginTx` | statedb/statedb.go:291-342 | A transaction starts from the main tree of the last version with nothing open. |
| `StateDB.TreeTx.SubTree` | statedb/treeupdate.go:136-175 | Opens one subtree of an open tree as the next step of a path, or returns the one already open. |
| `StateDB.TreeTx.DeepSubTree` | statedb/treeupdate.go:179-187 | The loop opens the trees of a path one by one and leaves open those before a failure. |
| `StateDB.TreeTx.Add` | statedb/treeupdate.go:120-123 | Adding marks the tree as written, fails exactly if the key is taken and otherwise stores the new tree. |
| `StateDB.TreeTx.DeepGet` | statedb/treeupdate.go:191-197 | A deep read returns the leaf of the nested tree, and changes no other read of the transaction. |
| `StateDB.TreeTx.DeepAdd` | statedb/treeupdate.go:201-207 | A deep addition succeeds exactly if the path opens and the key is free there, and keeps the transaction valid. |
| `StateDB.TreeTx.DeepSet` | statedb/treeupdate.go:211-217 | A deep set succeeds exactly if the path opens, and keeps the transaction valid. |
| `StateDB.TreeTx.DeepSetNoState` | statedb/treeupdate.go:111-116 | Opens the path and writes one entry beside its tree, which a read then returns (`Sides.OpSides` says what else it changes: nothing). |
| `StateDB.TreeTx.DeepGetNoState` | statedb/treeupdate.go:111-116 | Opens the path and reads what is beside its tree, or fails if nothing is there under the key. |
| `StateDB.TreeTx.Commit` | statedb/treeupdate.go:317-338 | Commit succeeds exactly if propagation does, and then records the propagated root, or the last one if nothing changed, under the version; on failure the database is as before. |
| `Transactions.OpReads` | statedb/treeupdate.go:111-217 | What one operation of a transaction does to every read: nothing if its path does not open, and otherwise nothing but the edit at its path and, below it, to trees that hang from the edited leaf. |
| `Versions.VersionsAreThoseCommitted` | statedb/statedb.go:220-289 | From an empty database on, a version exists if and only if it is zero or was committed, and the current one is the last that was. |
| `Sides.OpSides` | statedb/treeupdate.go:111-116 | A write to the storage beside a tree that opens is read back and leaves every other key and tree; no read, addition, set or failed opening changes anything there. |
| `Sides.CommitSides` | statedb/treeupdate.go:317-338 | A commit keeps all of the storage beside the trees, and the next transaction starts with it. |
| `Sides.LifeKeepsSides` | statedb/statedb.go:291-342 | Through any life of a database the storage beside its trees is the map of the writes made to it, with dropped ones taken back. |
| `Sides.SidesAreNotVersioned` | statedb/treeview.go:88-94 | Whatever version its tree is opened at, the storage holds what was last committed. |
| `Nested.NewProcessAgrees` | vochain/process.go:24-66 | A new process on the trees and on a plain nested map: its leaf, an empty vote tree that nobody opens and, if voters register, an empty census and an empty nullifier tree; a process that exists stays. |
| `Nested.SetProcessAgrees` | vochain/process.go:171-192 | Storing other data of a process changes that data and none of its trees, open or not. |
| `Nested.EntryAgrees` | statedb/treeupdate.go:201-217 | Adding or setting a leaf of a tree of a process does what it does to the map, and nothing if there is no such tree. |
| `Nested.ChangeAgrees` | statedb/treeupdate.go:189-217 | Every change the state makes, through subtrees opened on demand at any depth, does to the reads of a transaction what it does to a plain nested map. |
| `Nested.ChangeKeepsFine` | statedb/treeupdate.go:111-217 | Every such change keeps the transaction sound and its open trees linked, so that its commit cannot fail. |
| `Books.GenesisInStep` | vochain/state.go:288-360 | A new database whose first transaction has added the process tree reads as the empty map. |
| `Books.ReopenedAgrees` | vochain/state.go:1044-1050 | The transaction that begins after a commit reads as the map did before it. |
| `Books.LifeInStep` | statedb/treeupdate.go:317-344 | Through any changes, commits and drops the open transaction reads as the current map, and every version has the root of the map that was saved as it. |
| `Books.DatabaseIsNestedMap` | statedb/statedb.go:211-342 | From the empty database on, whatever is written, saved and dropped: commit never fails, every version has the root of its map, and the last version shows each tree of its map and no other; a tree that nobody opened reports that it is empty, and is. |
| `Books.UnopenedRoot` | statedb/treeupdate.go:241-338 | The root of a committed version is a function of the map: nothing of which trees were open, or of the order of writes, is left in it. |
| `Books.SameRootIffSameMap` | statedb/statedb.go:254-260 | Two maps have the same main root if and only if they are equal. |
| `Books.VersionsAgreeIffMapsDo` | statedb/statedb.go:254-289 | Two databases, whatever their lives, have the same root at two versions if and only if the maps saved as those versions are equal. |
| `Storage.CastWrites` | vochain/state.go:779-817 | Adding the leaf of an accepted vote takes the content of the state to that of the state with the vote. |
| `Storage.CreateWrites` | vochain/process.go:24-66 | The same for a new process and its trees. |
| `Storage.AmendWrites` | vochain/process.go:171-192 | The same for every change of a process, its keys included. |
| `Storage.RegisterWrites` | vochain/census.go:33-73 | The same for a registration: the used weight and the key under the next number, which is refused exactly if the state refuses it. |
| `Storage.MoveIsWritten` | vochain/state.go:779-817 | What any move of the voting state writes leaves the trees with exactly the content of the state after it. |
| `StoredRuns.SaveIsWritten` | vochain/state.go:1004-1025 | Fixing the census sizes at the end of a block writes exactly the processes that change. |
| `LedgerStorage.LedgerCanFollow` | vochain/account.go:457-474 | For every run there are leaf writes that take the trees of accounts, oracles, costs, treasurer and used packages from each ledger to the next. |
| `StoredRuns.RunFits` | vochain/state.go:1028-1093 | Through every run of a node, blocks dropped and restarted included, what it writes, saves and drops keeps a book with the content of its committed and its current state. |
| `StoredRuns.RunIsStored` | vochain/state.go:1028-1060 | From the empty database on, at the end of every run of a node: the open transaction holds exactly its current state, ledger and elections, the last version is the one last saved, its root is a function of the committed state, and it shows exactly that state. |
| `StoredRuns.FirstVersionFits` | vochain/state.go:288-360 | Adding and filling the trees of the first ledger and saving version zero gives the content of a node without elections. |
| `StoredRuns.VoteTakenIffTreeTakesIt` | vochain/state.go:779-817 | The state takes a vote if and only if its identifiers have the right size and the vote tree of the process opens without a leaf for it. |
| `StoredRuns.CommittedVotes` | vochain/state.go:1028-1060 | In the last version the leaves of the vote tree of a process are exactly its committed votes; a vote tree that nobody opened reports that it is empty, and there are no votes. |
| `StoredRuns.CommittedCensusRoot` | vochain/state.go:85-113 | In the last version the leaf of a process yields the root of exactly the keys in its committed rolling census. |
| `StoredRuns.SameRootIffSameContent` | vochain/app.go:636-647 | Two nodes have the same root as their last version if and only if the contents of the states they committed are equal. |
| `StoredRuns.NodesCommitSameRoot` | vochain/app.go:541-647 | Two nodes that start from the same state and go through the same saved blocks commit the same main root, whatever each checked, evicted and opened in between and in whatever order its trees were written. |
| `Accounts.TransferExact` | vochain/account.go:40-56 | The comparison with the wrapped sum detects overflow exactly: a transfer goes through if and only if the amount is positive, covered and fits, and then moves exactly the amount. |
| `Accounts.TransferSupply` | vochain/account.go:90-116 | A transfer between addresses keeps the sum of all balances if and only if the two addresses differ; to itself it adds the amount. |
| `Accounts.MintSupply` | vochain/account.go:119-136 | A mint adds exactly its amount to the sum of balances and does not wrap. |
| `Accounts.FeeSupply` | vochain/account.go:477-516 | A fee keeps the sum of balances, burnt tokens included, unless the burn account pays it. |
| `Accounts.FaucetSupply` | vochain/account.go:253-341 | A faucet package between two accounts debits the issuer exactly amount and fee, credits the recipient the amount and the burn account the fee. |
| `Accounts.HeldBelowSupply` | vochain/account.go:40-56 | Two accounts together hold at most the supply, so below 2^64 no transfer between them overflows. |
| `Accounts.WithoutDelegateRemoves` | vochain/account.go:78-85 | Removing a delegate by swapping in the last one removes exactly that address and keeps the others. |
| `Records.Record.Transfer` | vochain/account.go:40-56 | Between two records in memory this is the transfer of values; from a record to itself it changes nothing. |
| `Records.Record.IsDelegate` | vochain/account.go:59-66 | The search finds an address exactly if it is a delegate. |
| `Records.Record.AddDelegate` | vochain/account.go:69-75 | Adds a new delegate at the end, refuses a present one, and keeps the list free of duplicates. |
| `Records.Record.DelDelegate` | vochain/account.go:78-85 | The loop that swaps and shrinks the list while it goes on over the old one leaves the list without that delegate. |
| `Records.DeliveryKeepsDelegates` | vochain/transaction.go:68-330 | No transaction ever makes an account list a delegate twice, which the removal loop relies on. |
| `LedgerLaws.SupplyLaw` | vochain/transaction.go:119-323 | Token conservation for every payment, accepted or rejected: the sum of balances changes by what is minted and by what an account pays to itself, so without a mint it stays if and only if no account pays itself. |
| `LedgerLaws.SelfTransferMints` | vochain/account.go:90-116 | A concrete account that sends 40 of its 100 tokens to itself and then has 140. |
| `LedgerLaws.ProcessSupply` | vochain/transaction.go:119-172 | Paying for a process keeps the sum of balances. |
| `LedgerLaws.FeeGoesThrough` | vochain/account.go:477-516 | With a supply below 2^64 a fee goes through exactly if the account covers it, moves exactly the cost to the burn account and raises the nonce by one, except for faucet collections. |
| `LedgerLaws.SendIsWholeIffNoWrap` | vochain/account.go:573-647 | A token transfer that passes its check commits value and fee and one nonce, exactly, if and only if value plus cost does not wrap; otherwise the value may move without the fee. The overflow error cannot occur. |
| `LedgerLaws.CollectIsWholeIffNoWrap` | vochain/account.go:732-820 | A faucet collection that passes its check is applied whole if and only if amount plus cost does not wrap, and then debits the issuer exactly both; otherwise, if the balance covers the amount, it moves, the package is used and the nonce raised, and the transaction is rejected. |
| `LedgerLaws.CreationIsWholeIffPayable` | vochain/account.go:345-456 | An account creation with a faucet package that passes its check pays it if and only if amount and cost are positive and their sum does not wrap; otherwise the account exists, empty, although the transaction is rejected. |
| `LedgerLaws.NonceLaw` | vochain/account.go:437-516 | An accepted payment with a nonce carries the nonce of its owner and raises it by one, also for faucet collections, where another function raises it; no payment moves any nonce by more than one. |
| `LedgerLaws.ProcessNonce` | vochain/process.go:408-605 | Paying for a process moves every nonce by at most one, raises that of the sender by one if it goes through, and leaves treasurer and faucet identifiers. |
| `LedgerLaws.TreasurerNonceLaw` | vochain/state.go:516-530 | A transaction of the treasurer carries the treasurer nonce and raises it by one exactly if it is accepted; no other moves it. |
| `LedgerLaws.FaucetLaw` | vochain/account.go:253-341 | Used faucet identifiers only grow, by the identifier of the package that the transaction carries, which was unused, and only on one of the two routes. |
| `LedgerLaws.PayingMarks` | vochain/transaction.go:188-323 | On both routes, account creation and collection, no transaction is accepted and no token of any account moves without marking the package. |
| `LedgerLaws.PaysIffMarks` | vochain/account.go:253-341 | ... and a package is marked only if its transaction is accepted or moves tokens. |
| `PaymentEffects.MintEffect` | vochain/account.go:519-570 | A mint is accepted if and only if the treasurer signs it with its nonce, for a positive value and an existing account whose balance stays below 2^64; it credits that account by the value and changes nothing else but the nonce. |
| `PaymentEffects.CostsEffect` | vochain/transaction.go:805-837 | The treasurer, and nobody else, sets the cost of one kind of transaction to the given value. |
| `PaymentEffects.OracleEffect` | vochain/transaction.go:698-738 | The treasurer adds an address that is no oracle or removes one that is; the removed one keeps an empty leaf. |
| `PaymentEffects.FeeEffect` | vochain/account.go:477-516 | A fee is paid if and only if it has a price, the account covers it and the burn account can take it; it goes from one to the other and raises one nonce, but for collections. |
| `PaymentEffects.DelegateEffect` | vochain/account.go:650-729 | Exactly when the sender may add or remove a delegate, and that it then has exactly that delegate more or less, has paid and has its nonce raised. |
| `PaymentEffects.SendEffect` | vochain/account.go:573-647 | Exactly when a transfer is accepted, in whole numbers; value and fee then flow from the sender to recipient and burn account and one nonce is raised; to itself an account sends new tokens. |
| `PaymentEffects.CollectEffect` | vochain/account.go:732-820 | Exactly when a package is collected: the amount flows from issuer to recipient, the issuer pays the fee, the recipient has its nonce raised and the package is used. |
| `PaymentEffects.CreateEffect` | vochain/account.go:212-250 | Exactly when an account is created, and that it is empty. |
| `PaymentEffects.CreateWithFaucetEffect` | vochain/account.go:253-341 | Exactly when an account is created with a package: it holds the amount, and the issuer has paid amount and fee. |
| `PaymentEffects.SetInfoEffect` | vochain/account.go:345-455 | Exactly when the info of an account is set, by its owner or a delegate: only that info changes, the fee is paid and the nonce of the sender raised. |
| `PaymentEffects.ProcessFeeEffect` | vochain/account.go:194-209 | A transaction about a process charges its sender the price and raises its nonce, and for a new process its process index, which starts over above 2^22. |
| `LedgerRuns.LedgerSide` | vochain/transaction.go:68-330 | What any transaction does to the ledger: payments what they do alone, process transactions the fee of a signer whose nonce they carry, all others nothing. |
| `Histories.HistoryReplays` | vochain/app.go:541-647 | Every state of every run is the replay of the deliveries and block ends of its committed blocks and the current one; a dropped block leaves no trace. |
| `Histories.ReplayIsLater` | vochain/app.go:541-647 | Along such a history every state is sound and later than those before. |
| `LedgerRuns.TokensAreConserved` | vochain/transaction.go:68-330 | Over every run of blocks, deliveries, mempool checks and dropped blocks the sum of balances, in the committed and in the current state, is the first one plus exactly what was minted and what accounts paid to themselves there. |
| `LedgerRuns.NoReplay` | vochain/account.go:437-676 | In every run, over its committed blocks and the current one, two accepted transactions of one account carry the same nonce if and only if that nonce moved a multiple of 2^32 times in between, so never with fewer than 2^32 increments. |
| `LedgerRuns.NoTreasurerReplay` | vochain/state.go:1144-1159 | The same for transactions of the treasurer. |
| `LedgerRuns.FaucetPaysOnce` | vochain/account.go:253-341 | In every run, over its committed blocks and the current one, by account creation or collection, no two transactions are accepted or move tokens on account of packages with the same issuer and identifier. |
| `LedgerRuns.DeliveryKeepsLeaves` | vochain/state.go:390-418 | No transaction, accepted or not, makes an account, a used package, a cost or an oracle, removed or not, disappear from the ledger. |
| `VotingLaws.AllowedByCheck` | vochain/process.go:208-269 | A status change passes the check exactly if the edge exists and its timing and interruptibility conditions hold, the results edge from a ready process as written. |
| `VotingLaws.StatusMoves` | vochain/process.go:208-269 | The order of statuses used below is exactly what at most two allowed changes can reach. |
| `VotingLaws.LaterTransitive` | vochain/process.go:208-347 | Moving on composes: terms fixed, status only forward, keys and votes kept, votes of frozen processes unchanged. |
| `VotingInvariants.AddProcessOk` | vochain/process.go:24-76 | Creating a process keeps every invariant: vote trees, counter, censuses and the index by start block. |
| `VotingInvariants.AddVoteOk` | vochain/state.go:763-817 | Adding a vote keeps every invariant and raises the number of votes and the counter together. |
| `VotingInvariants.RegisterOk` | vochain/census.go:33-73 | After its check a registration cannot fail, and it appends one leaf under the next number. |
| `VotingInvariants.SaveOk` | vochain/state.go:1004-1048 | Committing a block never fails in a sound state and keeps every invariant. |
| `VotingInvariants.CensusLength` | vochain/census.go:33-89 | The stored length of a rolling census is the number of its leaves. |
| `Moves.TransactionsMove` | vochain/transaction.go:68-330 | Delivering any transaction, accepted or rejected, makes one of seven moves of the voting state, under the conditions of that move. |
| `MoveLaws.MoveKeeps` | vochain/process.go:24-405 | Every move keeps every invariant and leads to a later state: processes only move on, no key is replaced, votes stay and those of frozen processes do not change. |
| `MoveLaws.MoveKeepsReveals` | vochain/transaction.go:680-697 | Every move keeps that a process with a revealed key takes no votes after the current block. |
| `MoveLaws.PublishAccounts` | vochain/state.go:688-712 | Publishing a key keeps the key index right if and only if the key is not empty. |
| `MoveLaws.RevealAccounts` | vochain/state.go:715-741 | Revealing a key keeps the key index right if and only if the key is not empty; the key opens the public key of its slot. |
| `MoveLaws.MoveKeepsAccounts` | vochain/state.go:688-741 | For any one process, a move keeps its key index right if and only if it publishes and reveals no empty key of it and does not create it with keys counted already. |
| `MoveLaws.MoveKeepsCensuses` | vochain/census.go:33-73 | No move changes the census of a process that has started, nor the size and root a process carries. |
| `Runs.RunKeeps` | vochain/app.go:541-647 | In every run every state of the node is sound, and the committed state is later than the first. |
| `Runs.FrozenFromDelivery` | vochain/process.go:208-347 | The same from the very delivery that froze the process, through the rest of its block and all later ones, in the history of any state of a run. |
| `Runs.FrozenTallies` | vochain/process.go:208-347 | Once a committed process has ended, was canceled or has results, its votes are the same in every later state, committed or not; canceled and results are final and ended leads only to results. |
| `Runs.VotesAreKeptAndCounted` | vochain/state.go:747-833 | In every reachable state each process and nullifier has at most one vote, committed votes are all there unchanged, and the counter is the number of all votes, also after dropped blocks. |
| `Runs.VoteAddsOne` | vochain/transaction.go:68-84 | A delivered vote adds exactly one vote, or changes nothing. |
| `Runs.NoVoteAfterReveal` | vochain/transaction.go:348-366 | Once a committed process has a revealed private key, no vote for it is accepted in any later block. |
| `Runs.KeysAreAccounted` | vochain/state.go:688-741 | In every reachable state the key index of a process is the number of published keys minus the revealed ones, and every revealed key opens the public key of its slot, if no empty key of that process was accepted. |
| `Runs.EmptyKeySpoilsAccount` | vochain/transaction.go:749-767 | Publishing an empty key always breaks that account. |
| `Runs.RollingCensusAgrees` | vochain/state.go:956-1048 | In every run the censuses are numbered without gaps up to their length and within their limit, and a process that was created before the block it starts at carries the number of its keys from its start on, whatever else is delivered. |
| `Runs.StartedCensusSize` | vochain/census.go:33-89 | For one started process: its size, its counter and the number of its leaves are one number, at most the maximum. |
| `Runs.SizedIffStartsLater` | vochain/state.go:1004-1025 | A process of the current block whose voters register and whose size is unset carries, after any rest of the block, its commit and any run, the right size from its start on if and only if its start lies after that block; otherwise it never gets one. |
| `Runs.SizeIsFixed` | vochain/state.go:1004-1048 | From the start of a process on, the size it carries never changes in any run. |
| `Runs.EmptyNodeOk` | vochain/app.go:461-535 | A node without processes is sound, so the run results hold from the first block on. |
| `Runs.SecondRegistration` | vochain/census.go:165-270 | A second registration of an address passes the check if and only if it declares weight zero and would have passed as a first with weight one. |
| `CacheLaws.LazyCheckIsFull` | vochain/transaction.go:380-399 | The lazy check of a cached vote that the process vouches for decides exactly as the full check. |
| `CacheLaws.StaleCheckIffSameWeight` | vochain/transaction.go:491-516 | Whatever else of the process changed since, if envelope and census origin did not, the lazy check of a signed vote decides as the full one if and only if the proof holds with the same weight against the new census root. |
| `CacheLaws.DeliveryIgnoresCache` | vochain/transaction.go:334-578 | A delivery whose cached vote still has the process it was checked against, as far as proofs go, has the same reply and the same effect as without the cache. |
| `CacheLaws.CacheIsTransparent` | vochain/transaction.go:334-578 | Over whole runs, dropped blocks included, a node that checks, caches and evicts votes in any way goes through the blocks exactly as a node without a cache, if each vote it takes from the cache still has the process it was checked against. |
| `CacheLaws.SavedRunIsFresh` | vochain/cache.go:25-121 | If every block is saved, that holds as soon as no census root differs between the check of a vote and its delivery from the cache. |
| `CacheLaws.NodesAgree` | vochain/app.go:541-647 | Two nodes that go through the same saved blocks agree on every state, votes and counters included, whatever each checked and evicted, if no census root differs between the check of a vote and its delivery from the cache. |
| `Acceptance.VoteAcceptedIff` | vochain/transaction.go:334-578 | A vote that is checked in full is accepted if and only if its process is ready, the height lies between start and last block, its keys are not all revealed, the voter proves some weight, names keys if votes are encrypted, and has a free nullifier of the right size. |
| `Acceptance.VoteStored` | vochain/state.go:779-817 | An accepted vote stores exactly what was cast, with the proved weight and the height, and counts it; a rejected one changes nothing. |
| `Acceptance.CachedVoteAcceptedIff` | vochain/transaction.go:491-516 | A vote from the cache is accepted if and only if its process takes votes and its nullifier is free, and is stored as it was cached. |
| `Acceptance.EligibleVoteCounts` | vochain/state.go:779-817 | An eligible vote counts for good: it is accepted, and after any rest of the block, its commit and any run it is in every committed and current state as it was cast. |
| `Acceptance.CheckKeepsIff` | vochain/transaction.go:334-578 | A mempool check keeps a vote if and only if the node does not hold it and would accept it, and changes nothing else. |
| `Acceptance.DeliveryDropsIff` | vochain/transaction.go:491-516 | A delivery takes its vote out of the cache if and only if the process takes votes and the vote can be attributed, accepted or not. |
| `Acceptance.NewProcessEffect` | vochain/process.go:408-539 | Exactly when a process is created, under which identifier, that it is stored as requested but for its start, its empty key slots and its census root, starts where it asks to or with the next block, and what its sender pays. |
| `Acceptance.SetProcessEffect` | vochain/process.go:208-405 | Exactly when a status, results or a census may be set, by whom and at what price, and that nothing else of the process changes. |
| `Acceptance.PublishEffect` | vochain/transaction.go:749-767 | Exactly when a key is published; it fills its slot and is counted. |
| `Acceptance.RevealEffect` | vochain/transaction.go:769-802 | Exactly when a private key is revealed; it fills its slot and is no longer counted. |
| `Acceptance.RegisterEffect` | vochain/census.go:165-270 | Exactly when a key is registered; it comes under the next number and its owner has used weight one. |
| `Acceptance.SaveEffect` | vochain/state.go:1004-1060 | The end of a block changes nothing but the census root of processes whose voters register, and the size of those filed with the next block. |
| `Acceptance.BlockEffect` | vochain/app.go:541-647 | A block works on the last commit at the height after it, and its commit is the next version of what its deliveries left. |
| `Acceptance.EvictEffect` | vochain/cache.go:37-46 | An eviction takes the named votes out of the cache and nothing else. |
| `Authority.SpendingNeedsSignature` | vochain/transaction.go:68-330 | No transaction, accepted or rejected, takes tokens from an account that signed neither it nor the faucet package in it. |
| `Authority.AccountDataNeedsOwner` | vochain/account.go:345-456 | Accounts never disappear; the info of an account changes only by its own signature or that of one of its delegates, and its delegates and process index only by its own. |
| `Authority.RulesNeedTreasurer` | vochain/transaction.go:86-103 | Costs, oracles and the treasurer nonce change only by a transaction the treasurer signed. |
| `Authority.ChangesNeedAuthority` | vochain/process.go:542-605 | A process changes only by the signature of its owner or an oracle, its keys only by an oracle, and its results only by an oracle that does not own it, which adds its own tally, once, behind those before. |
| `Authority.CreationNeedsAuthority` | vochain/process.go:408-539 | A process is created only by its entity or an oracle, lasts at least a block, does not start in the past, is of a supported kind and starts without keys. |
| `Authority.OpenUntilItsEnd` | vochain/process.go:208-269 | Up to its end block a ready process that cannot be interrupted stays ready or gets results. |
| `Authority.EveryAcceptedVoteIsEligible` | vochain/transaction.go:334-578 | The same at the end of any run, for any cache the node has built up by then. |
| `Authority.AcceptedVoteIsEligible` | vochain/transaction.go:334-578 | An accepted vote was cast while its process was open and is stored as cast under a free nullifier, and nothing else changes; nullifier, proof and weight are right for the process as it is, or, if the vote comes from the cache, for the process it was checked against. |
| `Authority.AcceptedKeyIsEligible` | vochain/census.go:165-270 | An accepted registration came before the start of its process with a proof of weight at least one, uses up the weight of the address and appends exactly its key. |
| `Authority.DropsNoneIsSameAnonymity` | vochain/transaction.go:491-516 | That condition holds in every run in which no dropped block had created the process of a cached vote. |
| `Authority.OneVotePerVoter` | vochain/transaction.go:553-559 | In every run, over its committed blocks and the current one, with votes from the cache or not, no two accepted votes in a process that is not anonymous have the same signer, if no vote from the cache was checked in an anonymous process of the same identifier. |
| `Application.App.TransferBalance` | vochain/account.go:90-116 | Loading two records, moving between them and storing both in turn is the transfer of the ledger, also when both are one account. |
| `Application.App.MintBalance` | vochain/account.go:119-136 | Minting into a loaded record is the mint of the ledger. |
| `Application.App.CreateAccount` | vochain/account.go:212-249 | Creates an empty account, or fails on the zero address or an existing account. |
| `Application.App.SubtractCostIncrementNonce` | vochain/account.go:477-516 | Loading, charging and storing payer and burn account is the fee of the ledger; on failure nothing is stored. |
| `Application.App.ConsumeFaucetPayload` | vochain/account.go:253-341 | Three loaded records, two transfers and three stores are the faucet payment of the ledger; on failure nothing is stored. |
| `Application.App.SetAccountDelegate` | vochain/account.go:706-729 | Adds or removes a delegate of a stored account. |
| `Application.App.IncrementAccountProcessIndex` | vochain/account.go:194-209 | The index of processes grows by one and starts over after 2^22. |
| `Application.App.SetAccountInfo` | vochain/transaction.go:188-232 | The steps of an account info transaction, and what stays when a later step fails. |
| `Application.App.SendTokens` | vochain/transaction.go:258-270 | Check, transfer and fee in this order; a failed fee leaves the transfer. |
| `Application.App.SetDelegate` | vochain/transaction.go:272-301 | Check, change of the delegates and fee in this order; a failed fee leaves the change. |
| `Application.App.MintTokens` | vochain/transaction.go:246-256 | Check, mint and treasurer nonce in this order. |
| `Application.App.SetProcessResults` | vochain/process.go:284-347 | The first results come behind empty slots, two for each oracle; the loop refuses a second report of the same oracle; otherwise the tally is appended and the process gets the status of results. |
| `Application.App.SetProcess` | vochain/transaction.go:139-172 | The three kinds of process updates, and the one that is not supported. |
| `Application.App.Rollback` | vochain/state.go:1083-1095 | The open transaction becomes the committed state. |
| `Application.App.CollectFaucet` | vochain/transaction.go:303-323 | Check, faucet payment and fee in this order. |
| `Application.App.AddProcessKeys` | vochain/state.go:688-712 | Fills the slot and raises the key index, from zero if it was unset. |
| `Application.App.RegisterKey` | vochain/census.go:165-292 | Records the used weight and then appends the key; the weight stays if the append fails. |
| `Application.App.SetRollingCensusSize` | vochain/state.go:1004-1025 | The loop fixes the size of every listed process whose voters register, and fails exactly if one of them cannot be sized. |
| `Application.App.CacheDel` | vochain/cache.go:37-46 | Removes a vote and its nullifier and no other vote. |
| `Application.App.CachePurge` | vochain/cache.go:82-121 | Every eighteen blocks the loop removes exactly the votes checked 180 blocks ago or earlier, with their nullifiers, in 32-bit arithmetic. |
| `Application.App.BeginBlock` | vochain/app.go:541-550 | Rolls back, sets the height and purges: the step of the node followed by an eviction. |
| `Application.App.CastVote` | vochain/transaction.go:334-578 | Checks a vote, takes it from the cache if it is there and stores it. |
| `Application.App.AddTx` | vochain/transaction.go:68-330 | Every kind of transaction, step by step on the open transaction, has exactly the outcome of the state machine, errors and half-applied changes included. |
| `Application.App.DeliverTx` | vochain/app.go:603-628 | Delivering a transaction is the step of the node the run theorems are about. |
| `Application.App.CheckVote` | vochain/app.go:576-601 | A mempool check may cache the vote and changes no state. |
| `Application.App.Save` | vochain/state.go:1028-1060 | Fixing sizes and committing is the commit step of the node; it fails exactly if a listed process cannot be sized. |
| `Witnesses.SendHalfApplied` | vochain/account.go:573-647 | Value 50 of a balance of 100 at cost 2^64-1: the check passes, 50 move, the fee fails. |
| `Witnesses.CollectHalfApplied` | vochain/account.go:732-820 | The same for a faucet collection: the amount moves and the package is used by a rejected transaction. |
| `Witnesses.CreationLeavesAccount` | vochain/account.go:253-341 | A package at no cost: the transaction is rejected and the new account stays, empty. |
| `Witnesses.StartedUnsized` | vochain/state.go:1004-1025 | A process created and committed at its own start block has no census size. |
| `Witnesses.RegistersTwice` | vochain/census.go:165-270 | One address delivers two registrations, with weight one and with weight zero, and both keys are in the census. |
| `Witnesses.StaleVoteAccepted` | vochain/transaction.go:491-516 | A vote is checked, the owner delivers a census update, and the vote is accepted from the cache; without it the same delivery is rejected. |
| `Witnesses.EmptyKeysCounted` | vochain/transaction.go:749-767 | An oracle publishes a key of length zero in one slot twice: two keys are counted and none is there. |
| `Witnesses.VotesTwice` | vochain/transaction.go:491-516 | A block that creates an anonymous process is dropped after a vote in it was checked; in a process of the same identifier that is not anonymous the signer then votes twice. |
| `TreeWitnesses.OrderDecidesRoot` | statedb/treeupdate.go:259-303 | A process with both kinds of rolling census changed: the pass ends with one of two roots. |
| `TreeWitnesses.EmptyTreeTurnsIntoAnswer` | statedb/treeview.go:153-183 | A read of a tree that nobody opened fails, and at the same root succeeds once a transaction has opened it. |
| `TreeWitnesses.ImportCountsNothing` | censustree/censustree.go:410-447 | A weighted census that imports one leaf counts none. |
| `TreeWitnesses.RegisteredAgainFails` | censustree/censustree.go:207-222 | A key that verifies against a root fails against the same root once it is registered again. |
| `LittleEndian.DecodeEncode` | censustree/censustree.go:153-160 | A number written in a fixed number of bytes reads back modulo what fits. |
| `CensusTree.AddIndexed` | censustree/censustree.go:363-407 | Adding a key to a numbered census below 2^64 leaves succeeds under the next number, and numbering, counter and key resolution stay right. |
| `CensusTree.AddWeighted` | censustree/censustree.go:363-407 | Adding to a weighted census succeeds exactly if the key is new, and counter and weight stay the number and the sum of the leaves, modulo what fits the hash length. |
| `CensusTree.AddEachWeighted` | censustree/censustree.go:254-407 | The same for any sequence of additions, whatever fails. |
| `CensusTree.BatchIsEach` | censustree/censustree.go:288-355 | On a weighted census the leaves, counter and weight of a batch are those of its keys added one by one, going on after failures. |
| `CensusTree.IndexedBatchIsEach` | censustree/censustree.go:288-355 | On a numbered census below 2^32 leaves a batch leaves no key out and is its keys added one by one. |
| `CensusTree.AddedIsAllButInvalid` | censustree/censustree.go:337-350 | The weight of all values less that of the invalid ones is the weight of the leaves that were added. |
| `CensusTree.ProofsAreOfMembers` | censustree/censustree.go:207-237 | In a numbered census exactly the registered keys have proofs, of their own value, and these verify. |
| `CensusTree.VerifiesIffHeld` | censustree/censustree.go:207-222 | A proof verifies against any root if and only if the root holds the value under the key, or, in a numbered census, under the number recorded for the value. |
| `CensusTree.VerifiesIffRegistered` | censustree/censustree.go:207-222 | In a numbered census exactly the registered keys verify against its root. |
| `CensusTree.EarlierRootVerifiesIff` | censustree/censustree.go:207-222 | Against an earlier root a key verifies if and only if it was registered by then and not again since. |
| `CensusTree.ImportLeavesCounter` | censustree/censustree.go:410-447 | Importing a dump into an empty weighted census keeps the weight right, and the counter if and only if the number of leaves is zero modulo what fits. |
| `CensusTree.Tree.Add` | censustree/censustree.go:363-407 | Adds one key or refuses it and puts the counter back. |
| `CensusTree.Tree.WeighBatch` | censustree/censustree.go:339-347 | The two loops compute the weight of all values less that of the invalid ones. |
| `CensusTree.Tree.NumberKeys` | censustree/censustree.go:295-316 | The loop numbers the keys of a batch from the counter on, in 32 bits, and records the number of each. |
| `CensusTree.Tree.AddBatch` | censustree/censustree.go:288-355 | A batch is its keys added one by one, and reports exactly those the tree left out; a numbered census below 2^32 leaves stays right. |
| `CensusTree.Tree.ImportDump` | censustree/censustree.go:410-447 | Imports only into an empty tree; a numbered census then resolves every key and counts every leaf, a weighted one has the weight of its leaves and keeps its counter. |
| `CensusTree.Tree.FillKeyToIndex` | censustree/censustree.go:499-525 | For any order of leaves every key resolves to a leaf that holds it, and the counter is the number of leaves. |
| `Snapshot.ImageReadsBackIffSmall` | vochain/state_snapshot.go:90-166 | A saved file gives back the bytes of every tree if and only if each of them is below 2^32 bytes. |
| `Snapshot.LengthReadsBack` | vochain/state_snapshot.go:100-104 | The header length, written in 32 bytes and read from the first four, reads back. |
| `Snapshot.OpensWith` | vochain/state_snapshot.go:90-112 | The header of a saved file reads back. |
| `Snapshot.Writer.AddTree` | vochain/state_snapshot.go:197-205 | Starts an empty tree at the end of the list. |
| `Snapshot.Writer.Write` | vochain/state_snapshot.go:271-275 | Any chunk goes to the end of the current tree, and its size in the header follows, modulo 2^32. |
| `Snapshot.Writer.EndTree` | vochain/state_snapshot.go:208-211 | Ends the current tree and lets the next one start. |
| `Snapshot.Writer.Save` | vochain/state_snapshot.go:216-267 | The file is the length of the header, the header and the trees in order. |
| `Snapshot.Reader.Open` | vochain/state_snapshot.go:90-116 | Reads length and header, refuses a bad header or version, and stands at the first tree; a file without trees ends at once. |
| `Snapshot.Reader.FetchNextTree` | vochain/state_snapshot.go:120-143 | The loop over the sizes before it finds the start of the next tree; after the last one nothing changes. |
| `Snapshot.ReadSaved` | vochain/state_snapshot.go:90-166 | Round trip: opening a saved file and reading tree after tree returns the header and, in order, exactly the bytes of every tree that is not empty, however they were written. |
| `Batches.Batch.Get` | db/batch.go:47-49 | A read sees every earlier write, committed or pending. |
| `Batches.Batch.Do` | db/batch.go:73-111 | A set or delete changes what is read by exactly that write; it commits if and only if the transaction is too big, without the write, or the count reaches the limit, with it; the pending count stays below the limit if and only if the limit is at least two. |
| `Batches.Batch.Commit` | db/batch.go:118-120 | The database becomes what the batch reads. |
| `Batches.LastWriteWins` | db/batch.go:47-120 | After any writes a key holds what the last write to it left, and is otherwise untouched. |
| `Batches.WriteBatch` | db/batch.go:47-120 | Any writes ended by a commit leave the database as writing them in order would, wherever automatic commits fall. |

## Left out

- Internals of the Merkle tree, key-value store and encoding libraries: they are maps and inverse functions here.
- Signature recovery and the verification of census, zkSNARK, CSP, ERC20 and MiniMe proofs: functions of their arguments.
- `vochain/process_id.go`: the identifier codec would only add easy members; process identifiers are a function of what they are built from.
- Validators, genesis tables, node start-up, HTTP, RPC and IPFS services, event listeners and logging: plumbing around the state machine.
- `CancelProcess` and `GetProcessResults`: not reached by transactions.
- Mempool checks of transactions other than votes: they run the same checks and change nothing.
- The switch that disables the vote cache, its capacity and its recency order: any eviction, at any time, is a step of the node.
- Goroutines and locks: each operation of the state is one step, and the cache purge is a step between others.
- `FromRoot` copies of a census tree, publication flags and deletion of a census: readers of what is modelled.
- The snapshot of a whole state, its directory and its installation: only the file format is modelled.
- StoredRuns.RunIsStored: a step may write the leaves of the ledger in any order and visit any tree besides; the vote counter, the census lengths and the index by start block, which lie beside the trees and under no root, are state values only, and so are validators.
- LedgerRuns.TokensAreConserved: stated for runs in which no signature recovers to the burn account; a fee that the burn account pays is lost, as `FeeSupply` says.
- CacheLaws.CacheIsTransparent: asks of each vote that is taken from the cache that its process has the census it was checked against; `StaleCheckIffSameWeight` says what happens otherwise.
- Runs.KeysAreAccounted: asks of the accepted transactions about a process that they bring no empty key; `MoveKeepsAccounts` shows this to be exact.
- Application.App.Save: says nothing of the state when it fails, because the node then stops; `SaveOk` shows that a sound state never fails.
- Authority.OneVotePerVoter: asks that no vote taken from the cache was checked in an anonymous process of the same identifier; an oracle may choose the identifier of a process again after a dropped block, and `VotesTwice` shows the failure.
- Runs.SizedIffStartsLater: needs the start block to have a storage key of its own and heights below the end of 32 bits.
- Batches.Batch.Do: one method for setting and deleting, which differ only in the write.
- CensusTree.Tree.AddBatch: beyond 2^32 leaves of a numbered census only the report and unchanged state on refusal are stated, as leaf numbers are counted in 32 bits there.
