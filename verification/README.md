# The invite lifecycle, verified

A Dafny model of the invite service: how an invite is minted, stored, e-mailed, accepted, published, looked
up and rolled back by any number of handlers that share one revisioned key-value bucket. The theorems are
about whole runs: arbitrary interleavings of arbitrarily many handlers, with every KV call, signature, e-mail
and publication able to fail.

`dafny verify dfyconfig.toml` checks everything (add `--resource-limit 2000000 --verification-time-limit 0`
for a bounded check without the default time limit).

## How it is built

Two layers describe the same handlers, and a third part ties them together.

1. **The system.** `Protocol` gives the send and the accept handler as resumable programs: a local state names
   the one atomic action performed next (`Call`) and how the handler goes on with the answer (`Resume`);
   `Perform` is the effect of an action on the shared state. `Lifecycle` runs any number of them (`Run` over
   any sequence of `Event`s: a handler starts, a handler acts with some outcome, time passes) and states the
   inductive invariant `Inv`. `Stability`, `Preservation`, `SendSteps`, `SagaSteps`, `AcceptSteps` and `Runs`
   prove it step by step; `Theorems`, `Requests`, `Deadline`, `Settled`, `Completeness`, `Finality` and `Rollback`
   draw the conclusions.
   How a send ended includes how its undo or rollback was answered, which the code only logs.
2. **The code.** `World.Client` is the world one handler's code runs in: before each action the others may do
   anything that only adds to the shared state (`Env`), and the action is the same `Perform` under a choice
   nobody controls. `Repository`, `Links`, `Notification`, `Acceptance` and `InviteRead` are the service's
   methods on top of it, with the source's loops, branches and early exits, proved against the contracts in
   `InviteStore`. `StoreTheorems` says what those contracts amount to for callers.
3. **The tie.** A client keeps a ghost log of its actions and a ghost program counter `pc`; its class invariant
   says that the log is exactly what the automaton does. `Refinement` shows that such a log, woven together with
   the events of the others, is a run of the system, so every theorem about runs holds of the code; and
   `World.OthersRespectEnv` shows that the interference the code is verified under covers everything the
   protocol's own handlers do.

`KeySpace` is the key layout (normalization, unpadded base64url, prefix scans), `Model` the domain types,
`Auth` the tokens, `KeyValue` the bucket (a history of writes per key and one revision counter), `Lookup` the
e-mail index, `Resolution` the structured-over-scalar request fields.

## Assumptions

- KV operations are atomic and reads are current. Every key keeps the sequence of its writes. A delete is a
  write (a tombstone) that consumes a revision, so a conditional update against an older revision fails.
- A KV call takes effect before it returns or never. An error may mean "not applied" or "applied all the same"
  (`Fault`); the theorems say where the difference matters.
- Minted UIDs are fresh, non-empty and free of `/`. `Create` writes unconditionally, so that an accepted
  invite never becomes pending again rests on this freshness.
- A token carries its claims and the key that signed it; nobody else signs with the service's key (`Unforged`).
- The clock does not go backwards. Times are nanoseconds; token claims are whole seconds.
- The record encoder is faithful; the UID stored in an index entry does not decode as a record.
- The address parser is a parameter that yields a non-empty address; the URL parser is a parameter.
- Each character of a string stands for one byte of the Go string. A nil map or pointer is `None`.

Where the code and its documentation differ, the model follows the code: `ResolvedResourceType` applies no
default (`README.md:37` says "resource"); the record keeps the raw `ExpirationDays` and only the lifetime is
clamped; `Create` deletes the primary record when the index write fails (its comment says partial state is left
as it is); `MarkAccepted` compares `ExpiresAt` with the current time as well as with the acceptance time.

A property one might expect is false: acceptance is not permanent. `Rollback.AcceptedInviteCanBeRolledBack`
exhibits, for every valid request, a run without any KV failure in which an invite is accepted, the acceptance
is published, and the record is then deleted: the e-mail was delivered but reported failed, and `Delete` removes
the record whatever its status. The exact condition is `Finality.PermanentIffAnswered`: an acceptance is permanent
if and only if the sender of the invite has finished, that is, has answered its caller, whatever it answered.

So is another, which a comment in the store states: expired invites never become accepted. The clock is read before
the conditional update, so a handler that has made its last check can write after the expiry.
`Deadline.LateAcceptanceIff` gives the exact condition: a record that is pending when it expires can still be accepted
if and only if some handler stands between that check and its write.

## Model

| member | source | states |
|---|---|---|
| Theorems.EveryKeyHasALifecycle | internal/infrastructure/nats/invite_repository.go:49-248 | along every run each key ever written is a minted UID whose history is pending, possibly accepted, possibly deleted, and nothing after that, or the index key of one, written once and possibly deleted |
| Theorems.NoResurrection | internal/infrastructure/nats/invite_repository.go:155-248 | after a rollback no write of any handler follows; after an acceptance only one tombstone can, so a late MarkAccepted resurrects nothing and accepted never returns to pending |
| Theorems.OnlyOwnRollbackDeletes | internal/service/notification.go:165-190 | a deleted record was deleted by the undo or rollback of the very handler that minted it, and by one that was acknowledged unless a call of that handler took effect although it reported an error |
| Theorems.EveryAcceptanceWasVerified | internal/service/acceptance.go:59-89 | every accepted record differs from the pending one only in status, acceptance time and user, and was accepted for an event whose service-signed token verified with that record's UID and e-mail, before expiry, with the recipient's username where the record names one, although verification and MarkAccepted read separately |
| Theorems.AtMostOneAcceptance | internal/service/acceptance.go:89-125 | of all handlers of a run at most one gets success from MarkAccepted for an invite |
| Theorems.AtMostOnePublication | internal/service/acceptance.go:125-196 | no two published events are about the same invite, however many acceptance events arrive |
| Theorems.PublishedIsWhatWasWritten | internal/service/acceptance.go:161-196 | every published event is the view of the record the same handler's MarkAccepted wrote, already accepted before the status is forced |
| Theorems.AcceptedIsPublished | internal/service/acceptance.go:125-196 | an acceptance whose handler has finished was handed to the publisher by that handler, as the view of the record it wrote, unless a KV call of the handler failed or the invite has been rolled back |
| Theorems.RejectedIsSilent | internal/service/acceptance.go:42-46 | a rejected event has written no key and published nothing |
| Theorems.RetriesNeverExhausted | internal/infrastructure/nats/invite_repository.go:157-211 | among the protocol's own writers MarkAccepted sees at most one revision mismatch and never gives up on one |
| Theorems.AcceptanceTimeBounds | internal/infrastructure/auth/generator.go:71-85 | createdAt <= acceptedAt < expiresAt, and acceptedAt within 90 days of createdAt, for every requested number of days |
| Deadline.LateAcceptanceIff | internal/infrastructure/nats/invite_repository.go:177-198 | a record that is still pending when it expires is accepted in some continuation of the run if and only if a handler has already made its last expiry check and is about to write |
| Requests.StoredAsRequested | internal/service/notification.go:219-271 | in every run the record first stored for a request has each field the request determines: recipient (with username and avatar), inviter, resource, trimmed role, destination, raw days, the caller's claims but the reserved ones (nil when none), and expiry minting time plus 30, 90 or the requested days |
| Requests.OnlyTheNamedUserAccepts | internal/service/acceptance.go:150-156 | for every run and every request that names a recipient username, each accepted record of its invite was accepted by that user |
| Requests.SentAsRequested | internal/service/notification.go:132-148 | in every run a handler has sent nothing or one e-mail, with the names, resource, role, organization and account flag of its request, the configured base URL, and the request's token |
| Requests.AnsweredAsRequested | cmd/invite-api/service/subscriptions.go:60-95 | a finished send is answered invalid_request exactly when the request is at fault (e-mail, address, role, return URL, claim limits), internal_error exactly when it is not and nothing was sent, and otherwise email_dispatch_failed or success with the parsed address, the minted UID and the expiry asked for |
| Requests.TokenAsRequested | internal/infrastructure/auth/generator.go:70-125 | an invite's token is signed with the service's key and carries exactly: the service's issuer and audience, the minting second, the expiry second of the requested lifetime, UID, e-mail, destination, resource, role, the type where there is one, never "sub", and the caller's claims outside the reserved keys |
| Theorems.ReplyReportsEffects | cmd/invite-api/service/subscriptions.go:222-231 | over all runs and failures: invalid_request means no write and no send, internal_error no send, email_dispatch_failed one send attempt and a completed Create, success one send and both writes, with the record's own UID, e-mail and expiry in the reply; and at every earlier point of the run whatever had been sent had been sent after Create was complete |
| Theorems.CreateThenSend | internal/service/notification.go:148-165 | in every state of every run a handler about to send has completed Create and sent nothing, and a handler that has sent anything has completed Create and sent that invite's e-mail, once |
| Protocol.IssuedFieldsAgree | internal/service/notification.go:111-151 | token, e-mail payload and record of one invite agree on every field they share, expiry included |
| Settled.ResiduesAreEnumerable | internal/service/notification.go:150-190 | what each way a send can end leaves visible, under every pattern of failed KV calls: after an acknowledged undo or rollback no record, after a failed one the record, after an acknowledged rollback nothing but a stale index entry whose own delete failed, never a record without index after Create succeeded; exceptions only where a call took effect although it reported an error |
| Settled.RolledBackSendIsUnseen | internal/service/notification.go:165-190 | whatever the other handlers do meanwhile, after a send whose e-mail failed and that saw no KV fault neither its record nor its index entry is live, it has written no other key, and nothing visible was written by it |
| Settled.SenderWritesOnlyItsKeys | internal/infrastructure/nats/invite_repository.go:49-78 | in every run every write of a send handler is under the UID it minted or under that UID's index key |
| Settled.FailedSendLeavesNoTrace | internal/service/notification.go:165-190 | a send whose e-mail fails, run by itself and without KV faults, restores every visible key, its own and all others, exactly as it was |
| Settled.IndexAgreesWithRecords | internal/infrastructure/nats/invite_repository.go:45-78 | at every state, a UID whose sender is neither between two writes nor hit by a KV fault has a live record exactly when it has a live index entry |
| Settled.ReachableCoherent | internal/infrastructure/nats/invite_repository.go:49-78 | in every reachable bucket primary keys hold records of their own UID and one e-mail, and index keys lead to a record of the indexed e-mail |
| Settled.SettledLookupIsExact | internal/infrastructure/nats/invite_repository.go:103-147 | whenever no send or rollback for an e-mail is in flight or faulty, the index lookup yields exactly the live records of that e-mail, each once |
| Completeness.SentInvitesCanBeAccepted | internal/service/acceptance.go:50-126 | once the e-mail is handed over, an acceptance event with the e-mailed token and an admissible username, run undisturbed before expiry, ends with the record accepted by that user and exactly one publication of it |
| Finality.PermanentIffAnswered | internal/service/notification.go:165-190 | an accepted record stays as it is in every continuation of the run if and only if the send handler of the invite has finished; until then some continuation deletes it |
| Finality.ReplySettlesDeletion | internal/service/notification.go:155-209 | once the sender of an invite has finished, however it ended, no continuation of the run deletes the record |
| Finality.SentInviteStays | internal/service/notification.go:150-209 | once a send has been answered with success, the record and the index entry are live and are never deleted |
| Rollback.DeletedIffRolledBack | internal/infrastructure/nats/invite_repository.go:217-248 | a record whose delete was acknowledged to its sender is gone, and no other record is, unless a call of the sender took effect although it reported an error |
| Rollback.AcceptanceLastsUntilRollback | internal/service/notification.go:178-189 | between two points of a run an accepted record stays as it is if its sender has not asked for its deletion, or has asked without acknowledgement and no failed call of it took effect, and is gone once a delete has been acknowledged |
| Rollback.AcceptedInviteCanBeRolledBack | internal/service/notification.go:165-190 | for every reachable state and valid request there is a run without KV failures in which an accepted and published invite is deleted |
| Runs.StepKeepsInv | internal/service/notification.go:69-209 | the invariant survives every action of every handler with every outcome |
| Runs.ReachableInv | internal/service/acceptance.go:50-196 | the invariant holds along every run from an empty bucket |
| Growth.PerformGrows | internal/infrastructure/nats/invite_repository.go:49-248 | every action only adds to the shared state, keeps revisions strictly increasing per key, and writes no key but the one it names |
| World.OthersRespectEnv | internal/infrastructure/nats/invite_repository.go:148-154 | the interference the code is verified under covers every event of the protocol's handlers |
| Refinement.CodeRunsAreRuns | internal/service/notification.go:69-209 | the logged actions of a handler's code, woven with the events of the others, are a run of the system that ends where the code stands |
| Refinement.CodeObeysTheorems | cmd/invite-api/service/subscriptions.go:60-95 | the code's send reply reports its effects on the shared bucket; its MarkAccepted never runs out of retries; a discarded event is silent; a published view is that of the record it wrote |
| KeyValue.SameRevisionSameHistory | internal/infrastructure/nats/invite_repository.go:195-198 | a key that still carries the revision read still has the whole history that was read |
| InviteStore.ReadStillCurrent | internal/infrastructure/nats/invite_repository.go:195-198 | a conditional update that finds its revision finds the record that was read |
| InviteStore.MismatchMeansWrite | internal/infrastructure/nats/invite_repository.go:200-206 | a revision mismatch means somebody wrote the key since it was read |
| Repository.NATSInviteRepository.Create | internal/infrastructure/nats/invite_repository.go:49-78 | writes the record, then the index entry, deletes the record again if the second write fails; success exactly when both writes were acknowledged |
| Repository.NATSInviteRepository.GetByUID | internal/infrastructure/nats/invite_repository.go:82-96 | one truthful read: the decoded current record, not-found when there is none, another error otherwise |
| Repository.NATSInviteRepository.GetByEmail | internal/infrastructure/nats/invite_repository.go:103-147 | over a non-atomic, possibly interrupted key listing: reads exactly the scanned UIDs, skips missing records, fails on an interrupted scan or the first other failure |
| Repository.NATSInviteRepository.MarkAccepted | internal/infrastructure/nats/invite_repository.go:155-212 | one atomic "if present, pending and unexpired then accept": each definite answer was the atomic operation's at one of its own actions; only the last action writes; at most three passes; a final mismatch means at least three writes of others; never answers "retries exhausted" |
| Repository.NATSInviteRepository.Delete | internal/infrastructure/nats/invite_repository.go:217-248 | reads, deletes the record, then the index entry of the e-mail read; answers as the read did without a record, fails when the record could not be deleted; a failed index delete is not an error |
| InviteRead.LookupIsSoundInRuns | internal/infrastructure/nats/invite_repository.go:113-146 | among the protocol's handlers, whatever they do while the lookup runs, every record returned has the e-mail asked for and was current when read, and none is returned twice |
| StoreTheorems.LookupIsSound | internal/infrastructure/nats/invite_repository.go:113-146 | the same for any writers that keep the bucket coherent |
| StoreTheorems.LookupIsComplete | internal/infrastructure/nats/invite_repository.go:113-146 | a successful lookup returns every invite whose record and index entry were there at its start and not deleted before its end |
| StoreTheorems.CreatedIsFound | internal/domain/port/invite_store.go:29-40 | an invite whose Create succeeded is returned by every later successful lookup, whoever else writes, unless somebody deletes its record or its index entry after it was written and before the lookup ends |
| StoreTheorems.UndisturbedLookupIsExact | internal/domain/port/invite_store.go:37-40 | without interference, on a coherent bucket with a complete index, the code's lookup returns exactly the live records, each once |
| StoreTheorems.CreateIsSeen | internal/domain/port/invite_store.go:29-31 | an undisturbed Create adds exactly the record and its index entry to what is visible |
| StoreTheorems.DeleteUndoesCreate | internal/domain/port/invite_store.go:52-55 | an undisturbed Delete after Create on unused keys restores the visible bucket exactly |
| Lookup.LookupEqualsScan | internal/infrastructure/nats/invite_repository.go:103-147 | over any duplicate-free listing of a coherent, completely indexed bucket the indexed lookup equals a plain scan of the records |
| Lookup.IndexedRecordMatches | internal/infrastructure/nats/invite_repository.go:113-146 | the index entry that led to a record, even one read later, names the record's UID and e-mail |
| Links.AddCustomClaims | internal/infrastructure/auth/generator.go:104-123 | for every iteration order: fails exactly on inadmissible claims; otherwise adds exactly the non-reserved entries, and returns them, nil when there are none |
| Links.LinkGenerator.Generate | internal/infrastructure/auth/generator.go:70-132 | token, expiry and persisted claims come from one UID and one clock reading; the expiry is that reading plus the requested days, 30 without a positive number and at most 90; inadmissible claims fail before signing; no KV call is made |
| Auth.CustomClaimsCannotHijack | internal/infrastructure/auth/generator.go:48-52 | on reserved keys a token carries the service's own values, elsewhere exactly the caller's custom claims |
| Auth.AcceptedClaimsMatchToken | internal/infrastructure/auth/generator.go:104-123 | the persisted map equals the token's claims outside the reserved set, and is nil exactly when there are none |
| Auth.TTLExact | internal/infrastructure/auth/generator.go:73-85 | with 64-bit wrap-around modelled, the lifetime is 30 days for requests up to zero, 90 days above 90, and the requested days between |
| Auth.ClaimLimits | internal/infrastructure/auth/generator.go:27-31 | custom claims are admissible exactly up to 16 entries, 64 bytes a key and 1024 bytes a value |
| Auth.VerifyExactly | internal/infrastructure/auth/verifier.go:34-60 | any token verifies, with its UID and e-mail, if and only if key, issuer, audience, exp, nbf, iat, jti, invite_uid and email are right, each stated on the token's own claims, with 60 seconds of leeway |
| Auth.VerifyUndoesMint | internal/infrastructure/auth/verifier.go:34-60 | a minted token verifies exactly under its own key, with a non-empty e-mail, from nbf to exp with the leeway, and gives back the minted UID and the payload's e-mail, whatever the custom claims |
| Auth.TokenOutlivesRecord | internal/infrastructure/auth/verifier.go:16-17 | the record's expiry is the binding gate: a token verifies from minting until the record expires and for 59 more seconds, although exp is whole seconds |
| KeySpace.DecodeEncode | internal/infrastructure/nats/invite_repository.go:266-268 | unpadded base64url is invertible on all byte strings |
| KeySpace.ScanPrefixExact | internal/infrastructure/nats/invite_repository.go:103-121 | an e-mail's scan prefix is a prefix of another's index key exactly when the two are the same up to ASCII case and surrounding white space, and what follows it is the UID |
| KeySpace.BareScanPrefixes | internal/infrastructure/nats/invite_repository.go:103-121 | two e-mails without surrounding white space share a scan prefix exactly when they agree character by character up to ASCII case |
| KeySpace.ScanPrefixParses | internal/infrastructure/nats/invite_repository.go:115-120 | whatever follows a scan prefix in an index key is that key's UID |
| KeySpace.EmailIndexKeyInjective | internal/infrastructure/nats/invite_repository.go:251-253 | two index keys coincide exactly for the same UID and the same e-mail up to ASCII case and surrounding white space |
| KeySpace.IndexKeyReads | internal/infrastructure/nats/invite_repository.go:251-253 | an index key is index/email/, a slash-free code that decodes to the normalized e-mail, a slash, and the UID |
| KeySpace.EmailIndexKeyNotPrimary | internal/infrastructure/nats/invite_repository.go:22-26 | index keys never collide with slash-free primary keys |
| KeySpace.NormalizeComputes | internal/infrastructure/nats/invite_repository.go:256-258 | the normalized form is the part of the e-mail between the white space around it, with each ASCII capital replaced by its small letter and every other character kept |
| KeySpace.NormalizedAlike | internal/infrastructure/nats/invite_repository.go:256-258 | two e-mails have the same normalized form exactly when they agree up to ASCII case once the white space around them is taken off |
| KeySpace.TrimSpaceExactly | internal/service/notification.go:85-88 | the trimmed text is the one part that neither starts nor ends with white space and has only white space around it |
| KeySpace.NormalizeIdempotent | internal/infrastructure/nats/invite_repository.go:256-258 | normalizing twice is normalizing once |
| KeySpace.NormalizeIgnoresPadding | internal/infrastructure/nats/invite_repository.go:256-258 | surrounding white space does not change an e-mail's key |
| KeySpace.NormalizeIgnoresCase | internal/infrastructure/nats/invite_repository.go:256-258 | letter case does not change an e-mail's key |
| Notification.ValidateReturnURL | internal/service/notification.go:288-306 | accepts exactly when the list is empty, or the URL is https and its host matches a listed pattern |
| Model.RefusedExactlyWhen | internal/service/notification.go:70-106 | a request is refused exactly when it names no e-mail (structured, else scalar), its address does not parse, its role is blank, or its return URL is not admitted; otherwise the parsed address, the role without surrounding white space, and the caller's or the default destination go on |
| Model.AdmittedExactly | internal/service/notification.go:288-306 | with a non-empty list exactly the https URLs are admitted whose host is listed or is a subdomain of a domain listed behind a wildcard |
| Model.HostMatchesExactly | internal/service/notification.go:318-326 | a pattern that is no wildcard matches only itself, a wildcard only the subdomains of its domain |
| Model.WildcardMatchesSubdomains | internal/service/notification.go:318-326 | a wildcard pattern matches exactly the hosts that end in a dot and its domain, at any depth, and not the bare domain |
| Notification.NotificationService.HandleSendInvite | internal/service/notification.go:69-209 | is the send automaton action by action; its reply and its own actions are those of the end it reaches, so persisting precedes sending, at most one e-mail goes out, and a refused e-mail is followed by exactly one Delete |
| Acceptance.AcceptanceService.HandleInviteAccepted | internal/service/acceptance.go:50-126 | is the accept automaton action by action; a discarded event wrote and sent nothing; a publication follows three successful checks and a successful MarkAccepted |
| Acceptance.AcceptanceService.VerifyAcceptance | internal/service/acceptance.go:132-157 | accepts exactly a present token, an unexpired record, a token that verifies for this record's UID and e-mail, and the recipient's own username where named |
| Acceptance.AcceptanceService.PublishAccepted | internal/service/acceptance.go:161-196 | one read, then one publication of that record's view with status accepted, or none if it cannot be read |
| InviteRead.InviteReadService.GetInvite | internal/service/invite_read.go:33-43 | an empty UID is refused without reading; otherwise the view of the current record, or the store's error |
| InviteRead.InviteReadService.GetInvitesByEmail | internal/service/invite_read.go:52-68 | an empty e-mail is refused; otherwise the views, in order, of what the store's lookup returned for the address the text parses to, or for the text where it does not parse |
| InviteRead.AnswersAreForTheAddress | internal/service/invite_read.go:52-68 | whatever happens during a query, every invite in its answer was sent to the address the text parses to, or to the raw text, up to ASCII case and surrounding white space, and none is shown twice |
| InviteRead.SettledReadIsExact | internal/service/invite_read.go:45-68 | at every settled point of every run an undisturbed query answers with the views of exactly the live records of the address its text parses to, or of the raw text, each once |
| InviteRead.SentInviteIsListed | internal/service/invite_read.go:45-68 | an invite whose send was answered with success is in the answer of every later successful query whose text parses to its e-mail in any case, or unparsed is that e-mail, whatever other handlers do before and during the query |
| Model.ViewIsFaithful | internal/service/invite_read.go:71-103 | the public view determines the record field by field and is determined by it |
| Resolution.ScalarsStandIn | internal/domain/model/invite.go:52-114 | a request written with the deprecated scalars meets the same fate, and leads to the same token, e-mail and record, as its structured form |
| Resolution.StructuredFieldsWin | internal/domain/model/invite.go:52-114 | where the structured fields are filled in, the scalars have no influence |
| Resolution.UntypedStaysUntyped | internal/domain/model/invite.go:88-95 | no default resource type is applied to token, record or e-mail |

## Left out

- The NATS client, the e-mail transport and its templates, tracing, audit logging and redaction: a send and a
  publication are single actions whose reported result is independent of what happened.
- HMAC, the JWT wire format, UUID generation and JSON text: abstract, as listed under Assumptions. A link is its base
  URL and its token, not their text.
- Unicode in `normalizeEmail` and in trimming: ASCII lower case and ASCII white space only.
- `isRevisionMismatch` as text matching: a mismatch and another failed update are distinct answers of the bucket.
- The configuration parser and `redactEmail`: short independent functions.
- The decoding of messages into requests (a field-by-field copy, `malformed_request` when it fails), the replies of
  get_invite and get_invites_by_email, and the subscription start-up with its stop functions.
- Running without a store (`inviteStore` nil), which production wiring excludes.
- Context deadlines, except as failed KV calls and as the interrupted scan of `GetByEmail`.
- Progress under contention: runs are finite sequences of events and nothing is said about scheduling.
