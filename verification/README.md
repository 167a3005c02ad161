# ProofToAct release controllers: a verified model

The release scripts of this repository obtain a database cluster, put credentials into secret containers, bootstrap
the database and take temporary access away again, under the rule that nothing is ever done twice and nothing is
reported that is not so. They keep that rule with two journals, each one DynamoDB item that holds a chain of records
linked by SHA-256 digests. This project models those controllers and proves what the journals are for.

## What is modelled

* **Fresh primary** (`FreshPrimary*.dfy`). One item goes from a consumption through an intent and up to twelve
  transitions to a terminal. `FreshPrimaryJournal` has the item, the four conditional writes and the strict reader;
  `FreshPrimaryTable` the provider that sends the writes and reconciles a lost acknowledgement by one read;
  `FreshPrimaryProtocol` a state machine of any number of fresh and recovering runs whose requests may land at any
  later moment; `FreshPrimarySafety`, `FreshPrimaryTheorems` and `FreshPrimaryLag` what holds in every reachable state;
  `FreshPrimaryProgress` that an undisturbed run passes; `FreshPrimaryFencing` what a run can do after a terminal.
* **Fresh cluster** (`FreshCluster*.dfy`). A reservation, phases, and a final or a terminal receipt, written by updates
  that test much less. The provider controller and the reconciliation controller are classes over a table and a cloud
  in which every create and delete may take effect and still throw, a create of access may take effect at any later
  moment, and the process may die at any call. `FreshClusterLifecycle` puts the two together.
* **Credential sealer** (`CredentialSealer.dfy`): seven containers, five puts, a preflight before any of them.
* **Canonical JSON** (`CanonicalJson.dfy`), **pagination** (`Pagination.dfy`), **dotted quads** (`Ipv4.dfy`) and the
  **change-set deployer** (`Deployer.dfy`).

A digest is a free constructor over its preimage: equal digests mean equal records. That canonical bytes deserve this
is what `CanonicalJson` proves. Classes that stand for a service carry a constant `calm`: in a calm environment every
call is answered and takes effect at once (creates of access only if the cloud is also `prompt`). Safety is proved for
all values; with `calm` the contracts also say exactly how a run ends.

## What the proofs found

* Two attempts whose consumption and intent records are both byte-identical (one command, one millisecond, one
  authentication) both pass reconciliation and can both dispatch; attempts that differ in either record cannot
  (`DispatchersShareRecords`, `OneShot`, `IdenticalAttemptsBothDispatch`).
* A terminal fences every further record, but not one effect: a run that already knows an effect's dispatch phase to be
  durable, or is about to hear so, causes that effect although a recovering run has closed the journal as ambiguous.
  It is exactly that effect, and at most that one (`FencedRunActsIffArmed`, `FencedRunActsAtMostOnce`,
  `FencedRunStillActs`).
* `appendTransition` accepts a hundredth transition, after which no reader accepts the item; the controller's table ends
  at twelve (`ReadableIffBelowHundred`, `WriteAndRead`).
* The conditional writes of the provider compare the last receipt but not the record they add. Called with the receipt
  of another operation over the same cluster pair, or with a record bound to another command, they succeed and leave an
  item that no read ever accepts again; what the controllers send never does that (`PassingExtendsOrSpoils`,
  `SpoiledIsUnreadable`, `SpoiledForever`, `SendableIsBound`).
* A cluster receipt always claims an absent administrator and an empty allowlist. If no create took effect late, that is
  true exactly unless a run that was to create the administrator found one already there, or the allowlist already held
  an entry (`RunController`, `MisreportedAdministrator`, `MisreportedIngress`).
* A create that throws and takes effect after the cleanup looked makes a stored terminal receipt false. A true
  receipt stays true exactly if nothing is pending, which is so whenever the journal records the creation as observed or does not
  announce it; a final receipt is always true and stays so (`SlowIngress`, `StaysRevokedIffNothingPending`,
  `JournalTellsWhatIsPending`, `Operate`).
* Reconciliation runs that overlap are kept apart only by the bytes of the record that announces a delete: two that send
  the same record both delete (`AnnounceTwice`, `DeleteTwice`).
* The order of keys shows in canonical bytes exactly when the collation calls two different keys equal; `localeCompare`
  may do so for canonically equivalent texts (`OrderNeverShowsIffNoTies`).
* The cloud inventory tests a continuation token by pattern and remembers it by value or identity. Two different tokens
  that turn into one text make the client repeat a request, and a parsed array makes it send one text up to 31 times and
  succeed. It repeats nothing exactly if no two tokens look alike, as with text, which the secret inventory demands
  (`RepeatableIffLookAlikes`, `SendsOneText`, `VersionRequestsNeverRepeat`).
* A stack that the deployer sees complete and protected is the one its receipt names. If protection was still off, the
  stack observed after asking for it is validated but compared neither by identifier nor by status with the completed
  one, and the receipt can name any other intended stack (`Deploy`, `NamesAnotherStack`).

## Model

| member | source | states |
|---|---|---|
| `FreshPrimaryJournal.EncodeInjective` | scripts/fresh-primary-aws-provider.js:866-880 | two journals never share one stored item |
| `FreshPrimaryJournal.ParseHeader` | scripts/fresh-primary-aws-provider.js:445-492 | accepts exactly one reading of the item's fixed part, and finds it whenever there is one |
| `FreshPrimaryJournal.ParseTransitions` | scripts/fresh-primary-aws-provider.js:490-518 | the loop over the slots returns the only chain of the wanted length that the slots hold, and fails exactly when there is none |
| `FreshPrimaryJournal.ParseClosing` | scripts/fresh-primary-aws-provider.js:519-562 | terminal, outcome and provider receipt are accepted together or not at all |
| `FreshPrimaryJournal.ParseStoredItem` | scripts/fresh-primary-aws-provider.js:445-586 | accepts an item iff it encodes one unbroken chain of the requested command with exactly its attributes, and returns that journal |
| `FreshPrimaryJournal.ConditionIsCompareLastReceipt` | scripts/fresh-primary-aws-provider.js:976-981 | on a chained item the state, version, count and slot tests together amount to one comparison: the write names the last receipt |
| `FreshPrimaryJournal.ConditionRefusesMisplaced` | scripts/fresh-primary-aws-provider.js:976-981 | a request that names a receipt which cannot stand at its place is refused by the condition of every chained item |
| `FreshPrimaryJournal.UpdatedEncodesExtension` | scripts/fresh-primary-aws-provider.js:1000-1007 | an update whose condition holds turns the encoding of a journal into the encoding of its extension |
| `FreshPrimaryJournal.ExtensionIsChained` | scripts/fresh-primary-aws-provider.js:970-1018 | the extension is again one unbroken chain of the same command |
| `FreshPrimaryTable.PassingExtendsOrSpoils` | scripts/fresh-primary-aws-provider.js:976-981 | a request of any kind that passes on a sound journal extends it if its record is bound to the journal's command, and otherwise leaves an item no reader accepts |
| `FreshPrimaryTable.SpoiledIsUnreadable` | scripts/fresh-primary-aws-provider.js:445-586 | an item that holds a record not bound to its command is accepted by no read |
| `FreshPrimaryTable.SpoiledForever` | scripts/fresh-primary-aws-provider.js:976-981 | and stays so whatever request passes on it |
| `FreshPrimaryTable.SendableIsBound` | scripts/fresh-primary-provider-controller.js:764-799 | what the controllers send is bound to the journal it passes on, so they never spoil an item |
| `FreshPrimaryTable.PrimaryTable.ReadStrong` | scripts/fresh-primary-aws-provider.js:835-853 | an absent item, or the journal of exactly the asked command; undisturbed, every other item throws |
| `FreshPrimaryTable.PrimaryTable.ReconcileWrite` | scripts/fresh-primary-aws-provider.js:588-603 | after an error a write counts only if the item parses for its command and holds that very write |
| `FreshPrimaryTable.PrimaryTable.WriteOnce` | scripts/fresh-primary-aws-provider.js:645-652 | one request in the log of requests, never a second; whatever lands meanwhile a sound journal came from one it only extends, and success means the write is in it |
| `FreshPrimaryTable.PrimaryTable.ConsumeOnce` | scripts/fresh-primary-aws-provider.js:855-912 | success means the returned record is the journal's own consumption; an undisturbed put on a free key succeeds |
| `FreshPrimaryTable.PrimaryTable.AppendIntent` | scripts/fresh-primary-aws-provider.js:914-968 | success means the intent is durable behind exactly the given consumption; given the stored consumption it lands, and the item stays readable exactly if the command is the stored one |
| `FreshPrimaryTable.PrimaryTable.AppendTransition` | scripts/fresh-primary-aws-provider.js:970-1018 | success means the transition is the link of its own number, right behind the receipt it names; a number outside 0..99 sends nothing; at the next place any record lands, and the item stays readable exactly if it is bound to the stored command and versioned by its number |
| `FreshPrimaryTable.PrimaryTable.Finalize` | scripts/fresh-primary-aws-provider.js:1020-1105 | success closes a chain of exactly the given length and last receipt; a receipt the outcome does not name sends nothing; at the right place it lands, and the item stays readable exactly if the command is the stored one |
| `FreshPrimaryTable.ReadableIffBelowHundred` | scripts/fresh-primary-aws-provider.js:472-473 | of the sound journals the reader accepts exactly those without a hundredth transition |
| `FreshPrimaryTable.SoundOfEveryLength` | scripts/fresh-primary-aws-provider.js:970-1018 | for every valid command there is a sound open journal of every length |
| `FreshPrimaryTable.WriteAndRead` | scripts/fresh-primary-aws-provider.js:122-126 | for every valid command and n up to 100, n transitions are written without an error, and the read that follows returns the journal exactly if n is at most 99 |
| `FreshPrimaryController.ValidateOccupiedRecord` | scripts/fresh-primary-provider-controller.js:520-589 | accepts exactly the recoverable journals with a fitting summary, and returns the last link before any terminal |
| `FreshPrimaryProtocol.BootstrapFollowsTable` | scripts/bootstrap-fresh-primary.js:619-797 | the bootstrap emits the controller's phase and flag table in order, and each effect comes right after its own dispatch phase |
| `FreshPrimarySafety.LandingExtends` | scripts/fresh-primary-aws-provider.js:588-603 | in every state of any number of runs, a message that lands extends the item it lands on, or creates it |
| `FreshPrimarySafety.EmittingOk` | scripts/fresh-primary-provider-controller.js:764-799 | the phase a run may emit next is the expected one, and its record links to the run's view |
| `FreshPrimarySafety.EventKeepsInv` | scripts/fresh-primary-provider-controller.js:670-874 | every event of every run, late landings included, keeps the protocol invariant |
| `FreshPrimarySafety.RunsKeepInv` | scripts/fresh-primary-provider-controller.js:670-874 | so does every sequence of events; journals only grow and no run takes anything back |
| `FreshPrimaryTheorems.ReachableItemsAreAccepted` | scripts/fresh-primary-aws-provider.js:445-586 | under any interleaving every stored item is one the strict reader accepts, and the controller's validation accepts it exactly from the intent on |
| `FreshPrimaryTheorems.TerminalFencesEveryRun` | scripts/fresh-primary-provider-controller.js:720-748 | once a terminal is stored the item never changes, and no run passes unless that terminal was a confirmation |
| `FreshPrimaryTheorems.FinalizeClosesAtItsOwnLength` | scripts/fresh-primary-provider-controller.js:805-841 | a finalise from any view, however stale, fails its condition or closes the chain at exactly the length and receipt it names |
| `FreshPrimaryTheorems.DispatchersShareRecords` | scripts/fresh-primary-provider-controller.js:681-754 | two runs over one cluster pair that both dispatch have one command, one consumption record and one intent record |
| `FreshPrimaryTheorems.OneShot` | scripts/fresh-primary-provider-controller.js:681-754 | of runs that differ in their consumption or in their intent, at most one over a cluster pair ever enters dispatch |
| `FreshPrimaryTheorems.LaterRunsNeverDispatch` | scripts/fresh-primary-provider-controller.js:700-748 | a run that starts once the item exists never consumes and never dispatches |
| `FreshPrimaryTheorems.EffectsAreWrittenAhead` | scripts/bootstrap-fresh-primary.js:1015-1053 | an effect happens only when the run's own consumption, intent and that effect's dispatch phase are durable |
| `FreshPrimaryTheorems.PassedIsStored` | scripts/fresh-primary-provider-controller.js:625-668 | a run that passes holds the stored closing, a confirmation |
| `FreshPrimaryTheorems.PassIsFinal` | scripts/fresh-primary-provider-controller.js:700-718 | all passes of one key report the same closing of all twelve phases with a valid receipt |
| `FreshPrimaryTheorems.FailedTerminalRecordedNothing` | scripts/fresh-primary-provider-controller.js:805-841 | a stored FAILED_TERMINAL closed a journal with no phase in it |
| `FreshPrimaryLag.ViewLagsByAtMostOne` | scripts/fresh-primary-provider-controller.js:760-799 | with distinct attempts a running view is a prefix of the durable chain and lags it by at most one record |
| `FreshPrimaryLag.IdenticalAttemptsBothDispatch` | scripts/fresh-primary-aws-provider.js:896-968 | for every valid command, millisecond and authentication: two attempts with this same consumption and this same intent can both dispatch, so OneShot asks for no more than it must |
| `FreshPrimaryFencing.ArmedIsAnnounced` | scripts/bootstrap-fresh-primary.js:1015-1053 | the effect a run can still cause is the one announced by the phase it last knew durable, or by the one transition it has in flight |
| `FreshPrimaryFencing.FencedRunActsIffArmed` | scripts/fresh-primary-provider-controller.js:764-799 | once a terminal is stored, a run can cause an effect it has not caused exactly if it stands right before it, or waits unanswered for the applied transition that announces it |
| `FreshPrimaryFencing.FencedRunActsAtMostOnce` | scripts/fresh-primary-provider-controller.js:764-799 | whatever follows the terminal, a run causes at most that one effect more |
| `FreshPrimaryFencing.FencedRunStillActs` | scripts/fresh-primary-provider-controller.js:720-748 | for every valid command and each of the four effects, a run of events in which the effect happens after a recovering run stored its ambiguous terminal |
| `FreshPrimaryProgress.UndisturbedRunPasses` | scripts/fresh-primary-provider-controller.js:670-874 | from every reachable state with the key free, a run of a valid command can go on to pass with any valid receipt |
| `FreshClusterJournal.ParseTransitions` | scripts/fresh-cluster-aws-provider.js:399-427 | the loop over the slots returns the only chain of the wanted length that they hold |
| `FreshClusterJournal.DistinctIffManyPhases` | scripts/fresh-cluster-aws-provider.js:428-429 | as many phase names as transitions iff no phase is recorded twice |
| `FreshClusterJournal.ParseStored` | scripts/fresh-cluster-aws-provider.js:374-482 | accepts an item iff it encodes a chained journal of the command with distinct phases and at most one receipt, and returns it |
| `FreshClusterWrites.ConditionIsCompareLastReceipt` | scripts/fresh-cluster-aws-provider.js:689-796 | although an update tests only version, last receipt and one attribute, it passes exactly on an open journal whose last receipt it names |
| `FreshClusterWrites.UpdatedEncodesExtension` | scripts/fresh-cluster-aws-provider.js:689-796 | a write that passes turns the encoding of a journal into the encoding of its extension |
| `FreshClusterWrites.PhasesAlongChain` | scripts/fresh-cluster-provider-controller.js:978-1007 | the phases a writer collected are the phases of the journal its last receipt ends |
| `FreshClusterWrites.KnownPhasesBound` | scripts/fresh-cluster-aws-provider.js:395-429 | distinct phases the controllers name number at most 51, so the cap of 80 never rejects |
| `FreshClusterTable.LandKeepsItem` | scripts/fresh-cluster-aws-provider.js:520-536 | one delivery extends the journal by exactly its write or changes nothing |
| `FreshClusterTable.DeliveriesKeepJournal` | scripts/fresh-cluster-aws-provider.js:689-796 | whatever writers deliver in whatever order and repetition, the item stays acceptable, never holds both receipts, and never changes once it holds one |
| `FreshClusterTable.ControllerTable.UpdateOnce` | scripts/fresh-cluster-aws-provider.js:520-536 | one request in the log of requests, never a second: success means durable; undisturbed, a write at the last receipt succeeds and adds only itself |
| `FreshClusterTable.ControllerTable.Reserve` | scripts/fresh-cluster-aws-provider.js:643-687 | success means the given reservation is stored; an occupied item is left alone; undisturbed, it succeeds exactly on an empty item or its own reservation |
| `FreshClusterTable.ReserveEach` | scripts/fresh-cluster-aws-provider.js:643-687 | of any number of attempts on one key, earlier puts landing late, two that pass sent one and the same reservation |
| `FreshClusterRecorder.Recorder.Append` | scripts/fresh-cluster-provider-controller.js:978-1007 | on success the local sequence, receipt and phases advance by one; on any doubt they stay; always a prefix of the durable chain |
| `FreshClusterRecorder.Recorder.PhasesAreDurable` | scripts/fresh-cluster-provider-controller.js:1000-1005 | every phase a controller believes recorded is durable |
| `FreshClusterController.FreshClusterRun.Record` | scripts/fresh-cluster-provider-controller.js:978-1007 | a phase already recorded throws; success means durable |
| `FreshClusterController.FreshClusterRun.OpenIngress` | scripts/fresh-cluster-provider-controller.js:1096-1128 | from the dispatch on absence is not claimed until a readback proves it |
| `FreshClusterController.FreshClusterRun.ObserveBaseline` | scripts/fresh-cluster-provider-controller.js:1177-1200 | done exactly when the users are root alone, plus the administrator exactly when one is adopted |
| `FreshClusterController.FreshClusterRun.RevokeAdmin` | scripts/fresh-cluster-provider-controller.js:1440-1479 | done means a complete inventory showed the administrator absent |
| `FreshClusterController.FreshClusterRun.CloseIngress` | scripts/fresh-cluster-provider-controller.js:1481-1500 | an empty allowlist is claimed only after a complete readback showed it |
| `FreshClusterController.FreshClusterRun.SuccessPath` | scripts/fresh-cluster-provider-controller.js:1017-1500 | undisturbed, it succeeds exactly on an empty allowlist, the expected users and a prompt cloud; success leaves neither administrator nor ingress, and nothing that may still arrive |
| `FreshClusterController.FreshClusterRun.CleanUp` | scripts/fresh-cluster-provider-controller.js:1620-1718 | keeps the flags truthful through every failure; undisturbed, it leaves neither administrator nor ingress |
| `FreshClusterController.FreshClusterRun.Execute` | scripts/fresh-cluster-provider-controller.js:1017-1748 | a receipt is sent only when what the run added or adopted was seen to be gone; otherwise the journal stays open. If nothing arrived late it is true exactly on an unclaimed cloud; a final one always is, with nothing pending. Undisturbed it finalises or terminalises, decided by the initial cloud and its promptness alone |
| `FreshClusterLifecycle.RunController` | scripts/fresh-cluster-provider-controller.js:933-1748 | an occupied journal is rejected untouched; nothing is mutated without a reservation; receipts are true of all but what arrived late, and if nothing did exactly on a cloud nobody else had claimed; what may still arrive was announced and never recorded as observed |
| `FreshClusterLifecycle.Operate` | scripts/fresh-cluster-provider-controller.js:933-1748 | main run and any number of reconciliations, dying anywhere: all mutations written ahead, deletes announced by a reconciliation number at most one for each access, at most three for each in all; a sent receipt means that all access but what arrived late is revoked, a final one that none is left or can come |
| `FreshClusterLifecycle.MisreportedAdministrator` | scripts/fresh-cluster-provider-controller.js:1009-1016 | on every cloud that already holds the administrator to be created, the undisturbed run ends with a terminal that reports it absent |
| `FreshClusterLifecycle.MisreportedIngress` | scripts/fresh-cluster-provider-controller.js:1620-1748 | on every cloud whose allowlist already holds an entry, the undisturbed run ends with a terminal that reports it empty |
| `FreshClusterLifecycle.SlowIngress` | scripts/fresh-cluster-provider-controller.js:1096-1128 | on every cloud with an empty allowlist whose creates throw and are slow, the entry arrives after a terminal that reports the allowlist empty was stored |
| `FreshClusterLifecycle.StaysRevokedIffNothingPending` | scripts/fresh-cluster-provider-controller.js:1620-1748 | a cloud without access stays so, whatever arrives, exactly if no create is pending |
| `FreshClusterController.JournalTellsWhatIsPending` | scripts/fresh-cluster-provider-controller.js:1096-1128 | a journal that records a creation as observed, or does not announce it, vouches that nothing can arrive later |
| `FreshClusterReconciliation.Reconciliation.Record` | scripts/fresh-cluster-reconciliation-controller.js:106-134 | a phase already recorded is skipped; success means durable |
| `FreshClusterReconciliation.Reconciliation.FindEntry` | scripts/fresh-cluster-cloud-controller.js:735-760 | no entry, or the single one of this operation; anything else throws |
| `FreshClusterReconciliation.Reconciliation.DispatchAdminDelete` | scripts/fresh-cluster-reconciliation-controller.js:160-187 | an administrator still there after its recovery delete was announced is not deleted again |
| `FreshClusterReconciliation.Reconciliation.DispatchIngressDelete` | scripts/fresh-cluster-reconciliation-controller.js:204-235 | an entry is deleted only if the interrupted run announced to create one, and once |
| `FreshClusterReconciliation.Reconciliation.Run` | scripts/fresh-cluster-reconciliation-controller.js:156-280 | a terminal is sent only after its own readbacks showed no administrator and an empty allowlist, so that at most what arrived late is left; undisturbed, access is revoked exactly when it is still revocable |
| `FreshClusterReconciliation.Reconcile` | scripts/fresh-cluster-reconciliation-controller.js:67-280 | a stored final receipt or safe terminal is handed back untouched; only the bootstrap administrator and this operation's entry are ever removed |
| `FreshClusterReconciliation.ReconcileRepeatedly` | scripts/fresh-cluster-reconciliation-controller.js:67-280 | over any number of runs dying anywhere, each delete is sent at most once, behind its durable dispatch phase |
| `FreshClusterOverlap.AnnounceTwice` | scripts/fresh-cluster-reconciliation-controller.js:106-134 | two runs that read the same journal both get past one announcement only with one and the same record; undisturbed, exactly then |
| `FreshClusterOverlap.DeleteTwice` | scripts/fresh-cluster-reconciliation-controller.js:160-187 | for every such record, two overlapping runs both delete the administrator behind one announcement |
| `CredentialSealer.LandingKeepsFit` | scripts/fresh-primary-credential-sealer.js:408-462 | a landing planned put turns no contradictory container into a fitting one, and changes no sealed one |
| `CredentialSealer.SealedByReads` | scripts/fresh-primary-credential-sealer.js:386-406 | the inventory and the exact read together decide whether a container is sealed |
| `CredentialSealer.SecretStore.Inspect` | scripts/fresh-primary-credential-sealer.js:386-397 | description and inventory, read separately, must agree; done, it shows the container as it is |
| `CredentialSealer.SecretStore.ReadExact` | scripts/fresh-primary-credential-sealer.js:399-406 | done only on the planned version, current, with the planned value |
| `CredentialSealer.SecretStore.ConvergeOne` | scripts/fresh-primary-credential-sealer.js:408-462 | at most one put, only into an empty container; done means sealed; undisturbed, done exactly when the container fits |
| `CredentialSealer.SecretStore.Preflight` | scripts/fresh-primary-credential-sealer.js:496-521 | done only if none of the seven containers contradicts the plan; puts nothing |
| `CredentialSealer.SecretStore.VerifyAll` | scripts/fresh-primary-credential-sealer.js:535-549 | done only on five sealed and two empty containers |
| `CredentialSealer.SecretStore.SealCustody` | scripts/fresh-primary-credential-sealer.js:464-569 | a contradiction anywhere means no put; each target is put to at most once; a return means the exact state; undisturbed, it returns exactly when nothing contradicts |
| `CredentialSealer.SecretStore.SealAgain` | scripts/fresh-primary-credential-sealer.js:464-569 | sealing what is sealed puts nothing and leaves it sealed, whatever fails; undisturbed, it returns exactly for the approved values |
| `CanonicalJson.TextRoundTrip` | scripts/fresh-primary-aws-provider.js:49-58 | an escaped string is read back whatever follows its closing quote |
| `CanonicalJson.NumberRoundTrip` | scripts/fresh-primary-aws-provider.js:49-58 | a printed safe integer is read back |
| `CanonicalJson.SortKeepsDistinct` | scripts/fresh-primary-aws-provider.js:52-54 | sorting keeps the keys and their distinctness |
| `CanonicalJson.PrintedValue` | scripts/fresh-primary-aws-provider.js:49-58 | a printed value, whatever follows it, is read back as that value with its members in printing order |
| `CanonicalJson.ArrangedPrints` | scripts/fresh-primary-aws-provider.js:49-58 | a value with its members in printing order prints as before |
| `CanonicalJson.DecodeEncode` | scripts/fresh-primary-aws-provider.js:101-114 | decoding an encoding succeeds, means the same value, and encodes to the same bytes |
| `CanonicalJson.DecodesExactlyEncodings` | scripts/fresh-primary-aws-provider.js:101-114 | the strict decoder accepts exactly the encodings of well-formed values |
| `CanonicalJson.EqualBytesEqualMeaning` | scripts/fresh-primary-aws-provider.js:60-73 | equal bytes mean equal values, so equal digests mean equal records |
| `CanonicalJson.OrderNeverShowsIffNoTies` | scripts/fresh-primary-aws-provider.js:52-54 | insertion order never shows in the bytes iff the collation tells all the keys apart |
| `CanonicalJson.TiedKeysShowOrder` | scripts/fresh-primary-aws-provider.js:52-54 | two keys the collation cannot tell apart give one value two encodings |
| `Pagination.DeadEnd` | scripts/fresh-cluster-cloud-controller.js:841-858 | a chain that neither ends nor names a fresh token cannot be completed |
| `Pagination.ChainIsFollowed` | scripts/fresh-cluster-cloud-controller.js:841-858 | the requests along a chain name each answer's token in turn, and none twice |
| `Pagination.CollectCompletePages` | scripts/fresh-cluster-cloud-controller.js:818-864 | the log of any server grows by at most 32 requests, each naming the token just answered and none made twice; it succeeds exactly on an ending chain of fresh tokens, with exactly the concatenation of its pages |
| `Pagination.CollectNamed` | scripts/fresh-cluster-cloud-controller.js:841-858 | any fewer than 32 different tokens the pattern accepts are asked for one after the other, whatever text they turn into, and the collection succeeds |
| `Pagination.SendsOneText` | scripts/fresh-cluster-cloud-controller.js:818-858 | every text the pattern accepts can be sent n times for every n up to 31, in a collection that succeeds |
| `Pagination.RepeatableIffLookAlikes` | scripts/fresh-cluster-cloud-controller.js:818-858 | whatever is known of the tokens, some server makes the client repeat a request exactly if two different such tokens turn into one accepted text |
| `Pagination.VersionRequestsNeverRepeat` | scripts/fresh-primary-credential-sealer.js:211-237 | the secret inventory, which demands text, never makes one request twice |
| `Pagination.AddVersions` | scripts/fresh-primary-credential-sealer.js:220-228 | one page is added iff all identifiers stay well formed and distinct |
| `Pagination.ListAllVersions` | scripts/fresh-primary-credential-sealer.js:211-237 | the log of any server grows by at most 100 requests, none made twice; it succeeds exactly on an ending chain with distinct identifiers, with exactly their disjoint union |
| `Deployer.CloudFormation.ValidateStack` | scripts/deploy-private-recovery-query.js:223-243 | done only on the intended stack with the intended processed template |
| `Deployer.CloudFormation.ValidateChangeSet` | scripts/deploy-private-recovery-query.js:245-273 | done only on the intended change set with the intended original template |
| `Deployer.CloudFormation.EnsureChangeSet` | scripts/deploy-private-recovery-query.js:338-366 | a change set is created exactly when stack and change set were both observed absent, and at most once |
| `Deployer.CloudFormation.PollOnce` | scripts/deploy-private-recovery-query.js:368-413 | an available change set is executed exactly when it was validated in that same poll, on an absent or reviewed stack |
| `Deployer.CloudFormation.AwaitCompletion` | scripts/deploy-private-recovery-query.js:420-436 | done only on a stack just validated and complete |
| `Deployer.CloudFormation.ReconcileProtection` | scripts/deploy-private-recovery-query.js:275-314 | protection was on already and nothing is asked, or it was asked for once and then observed on a validated stack |
| `Deployer.CloudFormation.Deploy` | scripts/deploy-private-recovery-query.js:316-461 | every mutation is justified by what was observed just before; a receipt means that the first complete stack whose template was read was the intended one, and names it if it showed its protection on; otherwise it names the intended protected stack seen right after the one request; it throws only where the last thing seen explains it |
| `Deployer.NamesAnotherStack` | scripts/deploy-private-recovery-query.js:275-314 | for every intended complete stack with protection off and every intended stack with protection on, of any identifier and status, some service makes the receipt name the second one |
| `Ipv4.SplitJoin` | scripts/fresh-cluster-cloud-controller.js:674-680 | a text has one reading as dotted parts |
| `Ipv4.NumberOfQuad` | scripts/fresh-cluster-cloud-controller.js:674-680 | every number below 2^32 is the value of the quad that spells it |
| `Ipv4.QuadOfNumber` | scripts/fresh-cluster-cloud-controller.js:674-680 | every accepted text is the quad of its value, which is below 2^32 |
| `Ipv4.PublicMeansOutsideRanges` | scripts/fresh-cluster-cloud-controller.js:682-695 | public means a dotted quad outside every listed block in prefix notation |

## Left out

- SHA-256, UTF-8 and the shapes of identifiers: digests are free constructors, texts are sequences of characters without lone surrogates, and long lists of equal fields are folded into constructors or one abstract field.
- CanonicalJson.DecodesExactlyEncodings: numbers are safe integers; canonical fractions, exponents, larger numbers and escaped lone surrogates, which the source also accepts, and the limit of 128 KiB are not part of this model.
- Dates and deadlines are integers or steps that may throw; the 45-minute and 24-hour windows are not proved.
- Record fields that every writer sets to one literal (schema names, status words, durability flags) are the datatype constructor itself.
- FreshPrimaryTheorems.OneShot: assumes that distinct attempts wrote different consumption or intent records, as `FreshPrimaryLag.IdenticalAttemptsBothDispatch` shows it must.
- FreshPrimaryProtocol models the controller's runs as events on values, not as a class, because their steps interleave; a bootstrap effect is one event that may happen right after its phase.
- FreshClusterReconciliation.ReconcileRepeatedly: is about reconciliation runs that do not overlap, which `FreshClusterOverlap.DeleteTwice` shows it must be.
- FreshClusterController.FreshClusterRun.Execute: creates of the administrator and of the ingress entry may take effect at any later moment; a delete, and the users the security bootstrap adds, take effect at once or never, and nobody else changes users or allowlist during an operation.
- FreshClusterController.FreshClusterRun.SuccessPath: the validators of receipts, plans and proofs are steps that may throw, not modelled field by field.
- CredentialSealer.SecretStore.SealCustody: the reads of one inspection are two snapshots; the pages of an inventory are modelled in `Pagination` and not interleaved with landing puts; nobody else writes to the containers during a seal.
- The signer secret put of the fresh-primary provider (one put, one reconciling read) is the effect `PutSignerSecret` only; it has the shape of the sealer's single target.
- Pagination.CollectCompletePages: the answers of a server are any function of how often it was asked before; response sizes and content types are not part of this model.
- Deployer.CloudFormation.Deploy: the service answers as any function of everything it was asked before; parameters, names and capabilities are single abstract fields; waiting between polls has no model.
- The finalizer for provider-key revocation always rejects first, and the file journal of the bootstrap is unreachable from its entry point; neither is modelled.
- AWS, HTTP and PostgreSQL clients, authentication readbacks, file custody, git and bundling are input and output, modelled as steps that may throw.
