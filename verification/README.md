# Verified model of the SHA agent and control plane

This project models the parts of the SHA endpoint-hardening system whose correctness spans many steps or several
programs, and proves what they promise, in Dafny 4.11.

- **Device identity** (`IdentityServer`, `EnrollmentRules`, `IdentityProtocol`, `IdentitySafety`, `IdentityRuns`, `IdentityPowerLoss`,
  `IdentityDurability`, `BootstrapSecrets`, `SharedDirectory`, `IdentityLosses`, `IdentityExample`, `IdentityWorld`,
  `DeviceAgent`): enrollment and credential rotation between the Go agent and the backend's handlers, as a state machine
  over agent file, config file, network, tables, other clients, kernel and power supply. The agent's methods run over
  that machine, and each step they take is recorded, so a crash inside a call is a prefix of a run.
- **Private files** (`PrivateFile`, `DurableCell`, `StateFile`): the crash-atomic write below the device state, over a
  file system with volatile and durable contents, and the atomic save it refines.
- **Credential text** (`Base64Url`, `CredentialText`): canonical base64url of section 5 of RFC 4648 (with sections 3.2
  and 3.5 on padding and canonical bits), and the validators, printers and parsers of three programs.
- **Network isolation** (`NetworkIsolation`): iptables chains with first-match semantics and commands that can fail.
- **Migrations against runtime code** (`ScopeHierarchy`, `ControlAliases`).
- **Authorization and sessions** (`Authorization`, `UtcText`, `BrowserSession`): grants compiled to SQL conditions, and
  expiry compared as text.
- **Self-contained protocols** (`SessionCache`, `ReleaseManifest`, `ControlPlaneUrl`, `BootstrapManifest`): the
  browser's session cache under interleaving, and manifests created and verified by the packaging script.
- `Text` and `Wrappers` hold what the others share.

Check everything with `dafny verify dfyconfig.toml`.

## Where the code does not do what it promises

For each of these the project proves the exact condition under which the promise holds, and shows how it fails.

- *Candidates and the bootstrap request are durable before they are sent* (agent/README.md:10). `Save` can fail after the
  rename, when only the directory sync failed. The next call loads the new file and goes on from it, although a power
  loss can still bring the old file back. This breaks four promises, the first three in either layout of the two files
  (`CodeCanLockItselfOutInOneDirectory`, `FirstEnrollmentCanLockOutInOneDirectory`, `CodeCanEnrollTwiceInOneDirectory`).
  The runs of the code that keep them are the write-ahead runs (`CarefulCodeIsWriteAhead`), and it is enough to send and
  clear only when the last save returned nil (`SettledCodeIsWriteAhead`).
  - *Rotation never locks the device out.* From every device that can enroll the code has a run that does
    (`CodeCanLockItselfOut`; `DeviceCanBeLockedOut` for concrete values). A request is safe exactly if every content that
    may survive holds the candidate (`RotateIsSafeIffCandidateIsDurable`).
  - *Neither does enrollment.* `FirstEnrollmentCanLockOut` is the run; a bootstrap request is safe exactly if the pending
    enrollment is in every content that may survive (`BootstrapIsSafeIffDurable`).
  - *A device enrolls at most once.* `CodeCanEnrollTwice` is the run. The condition is the same, given a second enrollment
    that would be redeemed (`EnrollmentIsUniqueIffDurable`); the control plane refuses one with the same fingerprint, so
    the host name or profile must have changed in between (`SameFingerprintIsRefused`).
  - *The bootstrap secrets are removed only after the device identity is durable* (agent/README.md:148). With both files
    in one directory, as by default, they are (`SecretsAreKeptInOneDirectory`): whatever makes the new config durable
    makes the state before it durable. With `state_path` in another directory `CodeCanClearTooEarly` is the run. There
    the promise holds exactly if no clear replaces the config while the last promotion's save has failed after its rename
    and nothing has settled the file since (`SecretsAreKeptIffClearsWait`).
- *The hierarchy backfill is total.* It aborts exactly if two legacy pairs look alike once joined, as a missing site and
  one spelled `<null>` do (`CreateScopeRows`, `NullMarkerCollides`).
- *Runtime resolution agrees with the backfill.* The migration keeps tenants and sites as stored, the runtime trims them;
  they agree exactly if trimming changes nothing (`ResolutionAgreesIffCanonical`).
- *The client filter selects a client if some location of it is permitted.* A client without locations is selected too
  if a global or client grant reaches it, and only then (`ClientFilterIsExactIff`).
- *A created manifest is accepted.* The readers refuse files over 1 MiB and 64 KiB, which the writers do not check, and a
  release with nothing to list (`CreatedManifestIsAccepted`, `CreatedManifestRoundTrips`).
- *Normalised URLs are normal.* `https://a /` becomes `https://a ` and then `https://a` (`SpaceBeforeSlashIsKept`). This
  happens exactly to URLs without port whose host name ends in white space (`NormalizationIsIdempotentIff`).

## Assumptions

- During a run of the identity protocol nobody revokes or deletes this agent's rows, and nothing of it expires; other
  clients cannot guess its secrets and otherwise do what they like with the tables that leave its rows alone.
- Random identifiers are new; a draw that collides with one in use counts as one that failed. Keyed hashes and digests
  are injective. The truncated hash of the hierarchy migration is a parameter that tells apart what is hashed.
- A bearer sent by the agent reaches the handler as the credential it stands for, which `ParseOfBearer` justifies.
- White space and letter case are ASCII. Clocks, resolver answers and random bytes are arguments.
- The name of a private file does not match the pattern of the temporary files beside it, and encoded states stay below
  the size limit of the state file.
- In `IdentityProtocol` the state file and the config have a directory each. `SharedDirectory` is the same system with
  both in one directory, the default; its runs are runs of the protocol, so everything said about the agent's methods
  covers both.
- "Reliable" surroundings fail at nothing and hold no interfering clients, but requests still in flight may arrive.

## Model

| member | source | states |
|---|---|---|
| `IdentityRuns.NeverLockedOut` | agent/cmd/sha-agent/identity.go:291-375 | In every state reachable from a fresh device, under crashes at any step, power losses, lost, late and repeated requests, failed saves and other clients, neither the current state file nor any content a power loss could leave of it is locked out of its endpoint, provided requests are sent only when what they carry is durable. |
| `IdentityRuns.NeverLockedOutWithoutPowerLoss` | agent/cmd/sha-agent/identity.go:291-375 | On a machine that never loses power the code as it stands is never locked out, whatever its saves report. |
| `IdentityRuns.ActiveCredentialIsDurable` | agent/cmd/sha-agent/identity.go:320-375 | In every such state the active credential of the agent's endpoint is the credential or the rotation candidate of every content of the state file that may survive. |
| `IdentityRuns.RotateIsSafeIffCandidateIsDurable` | agent/cmd/sha-agent/identity.go:297-306 | A rotation request can be followed by a lock-out exactly if some content that may survive a power loss does not hold the candidate. |
| `IdentityRuns.SettledFileIsDurable` | agent/cmd/sha-agent/state.go:63-79 | After a save that returned nil, everything the next bootstrap or rotation request carries is durable. |
| `IdentityRuns.SecretsClearedOnlyWhenEnrolled` | agent/cmd/sha-agent/identity.go:248-275 | In runs that clear only with a durable endpoint, and send only what is durable, the endpoint stays durable in every later state: once the secrets are gone, every content of the state file that may survive names an endpoint. Other runs of the code: see `SecretsAreKeptIffClearsWait`. |
| `IdentityRuns.EnrollmentHappensAtMostOnce` | agent/cmd/sha-agent/identity.go:161-194 | In runs without power loss, and in runs with power losses that send only what is durable: all bootstrap requests carry the same payload; the agent has at most one endpoint and has consumed at most one redemption of any token. Other runs of the code: see `EnrollmentIsUniqueIffDurable`. |
| `IdentityRuns.RunKeepsOneEnrollment` | agent/cmd/sha-agent/identity.go:210-246 | Along the same runs, each bootstrap request sent is the pending enrollment that the state file still holds, if it holds one. |
| `IdentityPowerLoss.UnsyncedCandidateLocksOut` | agent/cmd/sha-agent/identity.go:303-305 | From every settled, enrolled state: a save that fails after the rename, the next call's request, and a power loss end locked out. |
| `IdentityPowerLoss.CodeCanLockItselfOut` | agent/cmd/sha-agent/identity.go:291-318 | From every fresh device that could enroll, the code has a run that ends locked out, so the durability condition above cannot be dropped. |
| `IdentityPowerLoss.FirstEnrollmentCanLockOut` | agent/cmd/sha-agent/identity.go:129-136 | From every fresh device that could enroll, an unsynced pending enrollment is sent, redeemed and then lost; the exact system it ends in. |
| `IdentityDurability.CarefulCodeIsWriteAhead` | agent/cmd/sha-agent/identity.go:124-375 | The runs of the main results are exactly those runs of the code in which requests are sent and secrets cleared only once what they rely on cannot be lost. |
| `IdentityDurability.SettledCodeIsWriteAhead` | agent/cmd/sha-agent/state.go:63-79 | A run of the code that sends and clears only when the last save returned nil is such a run. |
| `IdentityDurability.RunKeepsBasic` | agent/cmd/sha-agent/identity.go:124-375 | Along every run of the code, careful or not: what may survive beside a pending enrollment is that enrollment or no file, and the tables stay consistent. |
| `IdentityDurability.BootstrapIsSafeIffDurable` | agent/cmd/sha-agent/identity.go:129-136 | In every state such a run reaches: a redeemable bootstrap request can be followed by a lock-out exactly if the pending enrollment it carries can still be lost. |
| `IdentityDurability.EnrollmentIsUniqueIffDurable` | agent/cmd/sha-agent/identity.go:129-136 | And it can be followed by a second enrollment of the device exactly in the same case, if the control plane would redeem a second one. |
| `IdentityDurability.CodeCanEnrollTwice` | agent/cmd/sha-agent/identity.go:129-194 | From every fresh device that could enroll, with any second enrollment the control plane would redeem, the code has a run that enrolls the device twice. |
| `IdentityDurability.SameFingerprintIsRefused` | backend/app/api/endpoints/device_identity.py:511-526 | A second enrollment with the fingerprint of an enrolled device is never redeemable, so it takes another host name or profile. |
| `BootstrapSecrets.SecretsAreKeptIffClearsWait` | agent/cmd/sha-agent/identity.go:197-207 | With state and config in directories of their own, over all runs of the code from a device that has its secrets: at no point can a power loss leave a config without secrets beside a state without endpoint, exactly if no clear replaces the config between a promotion whose save failed after the rename and the next thing that settles the state file (a save that returned nil, a writeback, a power loss). |
| `BootstrapSecrets.RunKeepsRestOfConfig` | agent/cmd/sha-agent/state.go:81-108 | Along every run, whatever may survive of the config keeps everything but the two secrets, and loses these together or not at all. |
| `BootstrapSecrets.OpenPromotionIsLosable` | agent/cmd/sha-agent/identity.go:248-253 | Along every run of the code: while such a promotion is open the visible endpoint can be lost, and otherwise a visible endpoint is durable. |
| `BootstrapSecrets.ClearAfterPromotionIsSafeIffSettled` | agent/cmd/sha-agent/identity.go:248-258 | The clear that follows a promotion finds a durable endpoint exactly if the state file is settled by then, as it is if the save of the promotion returned nil. |
| `BootstrapSecrets.CodeCanClearTooEarly` | agent/cmd/sha-agent/identity.go:197-207 | From every fresh device that could enroll and keeps its state file in another directory than its config, the code has a run after which the secrets are durably gone and the endpoint can be lost. |
| `SharedDirectory.SecretsAreKeptInOneDirectory` | agent/cmd/sha-agent/state.go:31-36 | With both files in one directory, as by default: no run of the code, whatever its saves report, lets a power loss leave a config without secrets beside a state without endpoint. |
| `SharedDirectory.SharedRunIsARun` | agent/cmd/sha-agent/state.go:31-36 | Every run with both files in one directory is a run of the protocol, in which each file has its own, with a writeback of both wherever the directory is synced. |
| `SharedDirectory.SharedRunKeepsInvariant` | agent/cmd/sha-agent/identity.go:124-375 | The protocol invariant holds along careful runs, and runs without power loss, in one directory. |
| `SharedDirectory.NeverLockedOutInOneDirectory` | agent/cmd/sha-agent/identity.go:291-375 | So the safety of careful runs holds for both layouts. |
| `SharedDirectory.RotateIsSafeIffCandidateIsDurableInOneDirectory` | agent/cmd/sha-agent/identity.go:297-306 | The exact condition for a rotation request is the same in one directory. |
| `SharedDirectory.BootstrapIsSafeIffDurableInOneDirectory` | agent/cmd/sha-agent/identity.go:129-136 | And the one for a bootstrap request. |
| `SharedDirectory.CodeCanLockItselfOutInOneDirectory` | agent/cmd/sha-agent/identity.go:291-318 | The run that locks a device out is possible in one directory as well. |
| `SharedDirectory.FirstEnrollmentCanLockOutInOneDirectory` | agent/cmd/sha-agent/identity.go:129-136 | So is the one that loses the first save. |
| `SharedDirectory.CodeCanEnrollTwiceInOneDirectory` | agent/cmd/sha-agent/identity.go:129-194 | And the one that enrolls a device twice. |
| `IdentityLosses.SoundAfterHarmlessLosses` | agent/cmd/sha-agent/identity.go:124-375 | Along runs of the code whose power losses left a file that still authenticates, holds what requests under way carry, and names an endpoint if the secrets are gone: the protocol invariant holds for what is visible, however early requests were sent. |
| `IdentityLosses.GuardedRunIsHarmless` | agent/cmd/sha-agent/identity.go:124-375 | Careful runs and runs without power loss are such runs. |
| `IdentityExample.DeviceCanEnrollTwice` | agent/cmd/sha-agent/identity.go:129-194 | One concrete device, renamed after its first file was lost, that is enrolled twice. |
| `IdentityExample.DeviceCanClearTooEarly` | agent/cmd/sha-agent/identity.go:197-207 | The same device, with its state file in a directory of its own, loses its secrets too early. |
| `IdentityExample.SharedDeviceIsFresh` | agent/cmd/sha-agent/state.go:31-36 | The same device with both files in one directory is a fresh device that has its secrets. |
| `IdentityExample.SharedDeviceCanBeLockedOut` | agent/cmd/sha-agent/identity.go:291-318 | It can be locked out. |
| `IdentityExample.DeviceCanBeLockedOut` | agent/cmd/sha-agent/identity.go:291-318 | One concrete device and control plane for which this happens. |
| `IdentityExample.DeviceIsRecoverable` | agent/cmd/sha-agent/identity.go:210-246 | The same device can enroll: it is a fresh device whose token is redeemable. |
| `IdentitySafety.StepKeepsInvariant` | agent/cmd/sha-agent/identity.go:124-375 | Every step of agent, network, control plane, other clients, kernel and power supply keeps the protocol invariant. |
| `IdentitySafety.RunKeepsInvariant` | agent/cmd/sha-agent/identity.go:124-375 | The invariant holds after every legal run from a fresh device. |
| `IdentitySafety.SaveKeepsInvariant` | agent/cmd/sha-agent/state.go:63-79 | Each of the five kinds of save keeps the invariant, whether it succeeds, fails before the rename or fails after it. |
| `IdentitySafety.RotationKeepsInvariant` | backend/app/api/endpoints/device_identity.py:688-771 | Delivering any rotation request ever sent, at any later time, keeps every possible state file able to authenticate. |
| `IdentitySafety.BootstrapKeepsInvariant` | backend/app/api/endpoints/device_identity.py:335-661 | Delivering any bootstrap request ever sent, at any later time, keeps every possible state file able to authenticate. |
| `IdentitySafety.OthersKeepInvariant` | backend/app/models.py:623-679 | Other clients that leave the agent's rows alone keep the invariant. |
| `IdentityServer.RotateMovesTheActiveCredential` | backend/app/api/endpoints/device_identity.py:688-771 | A rotation leaves exactly one of old and new credential active; it is refused only with 409, changes nothing then, and only because the identifier is taken. |
| `IdentityServer.RotateKeepsConsistency` | backend/app/models.py:646-652 | Rotation keeps the schema constraints, among them one active credential per endpoint. |
| `IdentityServer.ExchangeKeepsConsistency` | backend/app/api/endpoints/device_identity.py:335-661 | The enrollment exchange keeps all table constraints: unique installations, fingerprints, credentials and redemptions. |
| `IdentityServer.ExchangeSpendsOneUse` | backend/app/models.py:673-679 | An exchange that changes the tables has the secret of its token, and adds one redemption and one use of that token, within the token's limit; any other changes nothing. |
| `EnrollmentRules.ExchangeEnrollsIff` | backend/app/api/endpoints/device_identity.py:408-526 | An exchange changes the tables exactly if the request is supported, the bearer is the text of a stored token and its secret, the token is live, has uses left, fits the platform and belongs to an active scope, and neither installation, credential identifier nor fingerprint is claimed. |
| `EnrollmentRules.ExchangeWrites` | backend/app/api/endpoints/device_identity.py:528-636 | Then it writes exactly one endpoint with the request's data, the token's scope and the status the token's policy says, one active credential with the request's secret, one redemption of the request as normalised, and one use; a legacy endpoint with the fingerprint is taken over. |
| `EnrollmentRules.ProvenTokenIsUnique` | backend/app/device_identity.py:36-40 | A bearer proves at most one token. |
| `EnrollmentRules.UnprovenIsRefused` | backend/app/api/endpoints/device_identity.py:352-417 | A request that fails the schema is answered 422, another protocol 426, and a bearer that is not the text of a stored token and its secret 401; nothing changes. |
| `EnrollmentRules.RedeemedIsAnswered` | backend/app/api/endpoints/device_identity.py:419-475 | An installation redeemed before under the token gets its next identity check as answer, 409 if the request differs, and 401 if its credential is not active any more; nothing changes. |
| `EnrollmentRules.UnredeemedIsAnswered` | backend/app/api/endpoints/device_identity.py:477-526 | Otherwise the first of these decides: 401 for a token revoked, expired or used up, 422 for another platform, 401 for an inactive scope, 409 for anything claimed; else it is enrolled and answered with its next identity check. |
| `EnrollmentRules.IdentityCheckIff` | backend/app/api/endpoints/device_identity.py:664-685 | The identity check passes exactly with an active credential, describes that credential's endpoint, and is answered 401 otherwise. |
| `EnrollmentRules.RotateIsAnswered` | backend/app/api/endpoints/device_identity.py:688-771 | An active credential rotates to a new valid candidate, whose row becomes active while its own becomes replaced and nothing else changes; its own material is confirmed again; an invalid candidate is answered 422 and one in use 409. |
| `EnrollmentRules.InactiveBearerIsRefused` | backend/app/api/endpoints/device_identity.py:705-716 | Without an active credential a rotation is answered 401 and changes nothing. |
| `IdentityServer.RedeemableIsRedeemed` | backend/app/api/endpoints/device_identity.py:341-661 | A redeemable request is enrolled and answered with the identity of its new endpoint. |
| `IdentityServer.RedeemedIsReplayedOrRefused` | backend/app/api/endpoints/device_identity.py:425-460 | The same request after it was redeemed changes nothing; it is replayed under the same token and answered 409 under another. |
| `IdentityServer.AcceptedExchangeAuthenticates` | backend/app/api/endpoints/device_identity.py:664-685 | The answer of a successful exchange equals the device's next identity check. |
| `IdentityWorld.World.Interfere` | agent/cmd/sha-agent/identity.go:277-289 | Any activity of the surroundings is a legal continuation of the run and keeps what the agent holds and has confirmed. |
| `IdentityWorld.World.Save` | agent/cmd/sha-agent/state.go:63-79 | A save validates, then ends saved, not replaced, or replaced without its directory entry synced; it reports success only for the first. |
| `IdentityWorld.World.LosePower` | agent/cmd/sha-agent/state_posix.go:72-86 | A power loss leaves any one of the contents that may survive, and continues the run. |
| `IdentityWorld.World.Transmit` | agent/cmd/sha-agent/identity.go:291-375 | A request may be lost, handled without an answer reaching the agent, or answered. |
| `IdentityWorld.SurroundingStep` | agent/cmd/sha-agent/identity.go:124-208 | No step of the surroundings unpins an active credential the device holds; in a reliable world the server only completes the pending enrollment, uses no identifier that was not in use, and refuses no candidate it did not refuse before. |
| `DeviceAgent.Agent.EnsureDeviceIdentity` | agent/cmd/sha-agent/identity.go:124-208 | Success means an endpoint is set, nothing is pending, the durable credential is the active one and the bootstrap secrets are gone. If nothing fails and the device is recoverable, it succeeds or reports a refused rotation candidate, which it has then discarded; it reports one exactly if the control plane refused the pending candidate from the start. The start must be settled only where the power may fail during the call. |
| `DeviceAgent.Agent.Recover` | agent/cmd/sha-agent/identity.go:124-208 | If nothing fails during the calls and the device is recoverable, at most two calls end in a complete identity; two only if a rotation was pending, whose candidate the first call discarded. If the power may fail during the calls as well, the last save before them must have returned nil. |
| `DeviceAgent.RecoverFromReachable` | agent/cmd/sha-agent/identity.go:124-208 | From every state that a run of the code leaves behind whose power losses, if any, were harmless, settled or not: if the power holds during the calls, at most two of them end in a complete identity with the bootstrap secrets gone. |
| `DeviceAgent.Agent.RotateDeviceCredential` | agent/cmd/sha-agent/identity.go:291-318 | Success means the new credential is durable, active and confirmed, and nothing is pending. If nothing fails, the device is recoverable and the candidate is new, it succeeds, unless an older candidate was already refused at the start, which is then the error it reports. The start must be settled only where the power may fail during the call. |
| `DeviceAgent.Agent.MintAndRotate` | agent/cmd/sha-agent/identity.go:297-318 | Without failures a new candidate is persisted, installed, promoted and confirmed. |
| `DeviceAgent.Agent.ReconcilePendingRotation` | agent/cmd/sha-agent/identity.go:320-366 | Ends with the candidate durable and active, or with the candidate discarded and the old credential active, or with an error; without failures only the first two, and the second exactly if the candidate was refused from the start. |
| `DeviceAgent.Agent.TryRotation` | agent/cmd/sha-agent/identity.go:320-356 | Classifies the answers: candidate installed, candidate refused for good, or current credential no longer known, and the last implies the first. |
| `DeviceAgent.Agent.SendCandidate` | agent/cmd/sha-agent/identity.go:330-337 | An accepted rotation is for this endpoint and candidate; 409 means the candidate can never be installed, and without failures is given exactly if that was so before it was offered; 401 means it is installed. |
| `DeviceAgent.Agent.RecoverCandidate` | agent/cmd/sha-agent/identity.go:358-365 | Once the control plane has refused the current credential, the identity check of the candidate succeeds unless the network fails. |
| `DeviceAgent.Agent.PromoteRotation` | agent/cmd/sha-agent/identity.go:368-375 | A nil return means the promoted state is durable and its credential active. |
| `DeviceAgent.Agent.DiscardCandidate` | agent/cmd/sha-agent/identity.go:344-350 | The refused candidate is dropped only while the old credential is active. |
| `DeviceAgent.Agent.FinishEnrollment` | agent/cmd/sha-agent/identity.go:147-195 | Success means a complete identity; without failures it succeeds whenever the enrollment is or can be redeemed. |
| `DeviceAgent.Agent.AskForEnrollment` | agent/cmd/sha-agent/identity.go:148-187 | Any identity it accepts is what the control plane says about the persisted credential at that moment. |
| `DeviceAgent.Agent.RedeemToken` | agent/cmd/sha-agent/identity.go:168-187 | A conflict is resolved by one more identity check; without failures a redeemable request ends enrolled. |
| `DeviceAgent.Agent.ExchangeToken` | agent/cmd/sha-agent/identity.go:169-175 | The request sent is the persisted one; an accepted answer is what the next identity check would say. |
| `DeviceAgent.Agent.PromoteEnrollment` | agent/cmd/sha-agent/identity.go:248-258 | Success means the enrolled state is durable, its credential active and the bootstrap secrets gone. |
| `DeviceAgent.Agent.ClearPersistedBootstrapCredentials` | agent/cmd/sha-agent/identity.go:260-275 | Succeeds only with both secrets out of the config file, and keeps them in memory when it fails. Where the power may fail it is run only with a durable endpoint, which is when it is safe (`ClearAfterPromotionIsSafeIffSettled`). |
| `DeviceAgent.Agent.ClearBootstrapCredentialsFromConfig` | agent/cmd/sha-agent/state.go:81-108 | The config file is left alone or loses exactly the two secret fields. |
| `DeviceAgent.Agent.NewPendingEnrollmentState` | agent/cmd/sha-agent/identity.go:210-246 | Yields a valid pending state for this host that may be saved, or the reason it cannot. |
| `DeviceAgent.Agent.ConfirmEnrolled` | agent/cmd/sha-agent/identity.go:197-207 | An enrolled device without pending rotation ends in a complete identity unless something fails. |
| `DeviceAgent.NewDeviceIsEnrolled` | agent/cmd/sha-agent/identity.go:210-246 | What the control plane knows of a new device after its exchange is what its host reports, trimmed, under the identifiers and the secret it has drawn. |
| `DeviceAgent.MatchingIdentityIff` | agent/cmd/sha-agent/identity.go:390-414 | An accepted identity is the device's own in every field but its approval, and keeps the endpoint it had. |
| `DeviceAgent.MatchingRotationIff` | agent/cmd/sha-agent/identity.go:377-388 | An accepted answer to a rotation names exactly the candidate, this endpoint and an active status. |
| `DeviceAgent.RotateAnswers` | backend/app/api/endpoints/device_identity.py:688-771 | What each answer to a rotation request says about which credential is active, for every reachable state. |
| `DeviceAgent.IdentityCheckOfEnrolled` | agent/cmd/sha-agent/identity.go:390-414 | For every reachable state the identity check with a held credential passes validation exactly if that credential is active, and is answered 401 otherwise. |
| `DeviceAgent.ExchangeEnrolls` | agent/cmd/sha-agent/identity.go:161-187 | A redeemable request ends installed whatever requests were still in flight. |
| `PrivateFile.PrivateDirectory.WriteAtomicPrivateFile` | agent/cmd/sha-agent/state.go:151-219 | At every recorded file-system state the file is as before or carries the new content with private permissions; a nil return means the new content alone can survive. A directory that is not private, or a target that is there and not a private file, is refused with nothing changed; otherwise, if no primitive fails, it succeeds. No temporary is left if removing files works. When it returns, the directory as a whole has gone through one attempt to replace this one file. |
| `PrivateFile.PrivateDirectory.ReplaceThroughTemporary` | agent/cmd/sha-agent/state.go:174-218 | The temporary file goes from creation to rename and is removed on failure; every state on the way shows old or new. |
| `PrivateFile.PrivateDirectory.FillTemporary` | agent/cmd/sha-agent/state.go:192-207 | The temporary file is filled, synced and restricted before anything can see it under the target name. |
| `PrivateFile.PrivateDirectory.PublishTemporary` | agent/cmd/sha-agent/state.go:208-218 | The rename publishes the whole content, and the directory sync settles it. |
| `PrivateFile.PrivateDirectory.ProtectPrivateFile` | agent/cmd/sha-agent/state_posix.go:58-70 | Restores mode and owner checks without changing the content. |
| `PrivateFile.ReadIffPrivate` | agent/cmd/sha-agent/state.go:110-149 | A read gives the content exactly of a private regular file of the owner in a private directory, and is refused for anything else. |
| `PrivateFile.CrashedWriteReadsOldOrNew` | agent/cmd/sha-agent/state.go:110-219 | After a power loss at any point of a write, a read gives exactly what a read of the old or of the new file would give. |
| `PrivateFile.ReportedWriteSurvivesPowerLoss` | agent/cmd/sha-agent/state.go:151-219 | After a nil return every later power loss leaves the new content, readable. |
| `PrivateFile.RenameReplacesView` | agent/cmd/sha-agent/state_posix.go:72-74 | Seen from one file, a rename is a replacement whose durability is still open: the save that failed after the rename. |
| `PrivateFile.DirectorySyncSettlesView` | agent/cmd/sha-agent/state_posix.go:76-86 | Syncing the directory leaves only the visible content. |
| `PrivateFile.RenameReplacesInDirectory` | agent/cmd/sha-agent/state_posix.go:72-74 | Seen from the whole directory, a rename adds a version with one file replaced. |
| `PrivateFile.SyncSettlesDirectory` | agent/cmd/sha-agent/state_posix.go:76-86 | Syncing the directory settles every file in it. |
| `PrivateFile.PowerLossPicksAVersion` | agent/cmd/sha-agent/state_posix.go:72-86 | A power loss leaves one version of the directory, for all its files together. |
| `PrivateFile.PowerLossPicksAnOutcome` | agent/cmd/sha-agent/state_posix.go:72-86 | A power loss shows one of the outcomes of the file's cell. |
| `PrivateFile.EveryOutcomeCanSurvive` | agent/cmd/sha-agent/state_posix.go:72-86 | Each outcome of the cell is shown by some power loss, so the abstraction adds nothing. |
| `DurableCell.DecodingCommutesWithSave` | agent/cmd/sha-agent/state.go:39-79 | Replacing the bytes of the file implements the atomic save of the decoded state, for any decoder. |
| `StateFile.WriteRefinesSave` | agent/cmd/sha-agent/state.go:63-79 | One attempt to write the encoded state is one attempt to save the state in the protocol, with the same result, for every decoder that undoes the encoder. |
| `StateFile.Save` | agent/cmd/sha-agent/state.go:63-79 | Validates, limits the size and writes; what the file shows and what may survive of it change as by the protocol's save, and nil is returned exactly for the durable one. An invalid state, a state too large, and a target that may not be replaced are refused with nothing changed; without failures everything else is saved. |
| `StateFile.StateWriteRefinesSave` | agent/cmd/sha-agent/state.go:63-79 | In one directory, writing the state is one attempt to save both files with the config unchanged. |
| `StateFile.ConfigWriteRefinesSave` | agent/cmd/sha-agent/state.go:81-108 | And writing the config is one attempt to save both with the state unchanged. |
| `StateFile.PowerLossPicksBoth` | agent/cmd/sha-agent/state_posix.go:72-86 | A power loss leaves both files as in one of the versions that may survive. |
| `CredentialText.GoSecretsAreCanonical` | agent/cmd/sha-agent/identity.go:484-493 | The agent accepts a secret exactly if it is the unpadded base64url encoding of 32 to 96 bytes. |
| `CredentialText.BackendSecretsAreCanonical` | backend/app/device_identity.py:58-68 | The backend accepts exactly the same secrets. |
| `CredentialText.SecretsThreeWays` | scripts/sha-agent-package.py:71-83 | So does the packaging script, inside a token. |
| `CredentialText.TokensThreeWays` | agent/cmd/sha-agent/identity.go:476-482 | Agent, backend and packaging script accept exactly the same enrollment tokens. |
| `CredentialText.ParsedTokenIff` | backend/app/device_identity.py:36-40 | The backend reads from a bearer exactly the identifier and the secret it was printed from. |
| `CredentialText.ParseOfBearer` | backend/app/device_identity.py:43-47 | The backend reads every valid credential back from its bearer unchanged. |
| `CredentialText.BearerOfParse` | agent/cmd/sha-agent/identity.go:37-39 | Everything the parser accepts is the bearer of the credential it returns, and the agent would accept that credential. |
| `CredentialText.GeneratedMaterialIsValid` | agent/cmd/sha-agent/identity.go:499-525 | Generated credentials are valid and survive the bearer round trip. |
| `CredentialText.GeneratedInstallationIdIsValid` | agent/cmd/sha-agent/identity.go:511-517 | Generated installation identifiers match the pattern the state check demands. |
| `Base64Url.GoDecodesEncoding` | agent/cmd/sha-agent/identity.go:488-492 | The strict decoder inverts the encoder on all byte strings. |
| `Base64Url.PythonDecodesEncoding` | backend/app/device_identity.py:58-68 | The lenient, padding decoder inverts the encoder on all byte strings. |
| `NetworkIsolation.Firewall.Apply` | backend/app/installer_artifacts.py:725-761 | Success means every packet is decided: outgoing is accepted exactly if established, loopback or TCP to a resolved address and port, incoming exactly if established or loopback. Failure changes nothing or, if the rollback's commands work, restores the original tables. If all commands work and an address is resolved, it succeeds. |
| `NetworkIsolation.Firewall.Rollback` | backend/app/installer_artifacts.py:701-723 | After any number of complete or interrupted applies and rollbacks: it terminates, and if its commands work the tables are the original ones, and it succeeds exactly if they were not. If at least its checks tell the truth, success leaves no jump behind, whatever became of the deletions. |
| `NetworkIsolation.Firewall.RemoveJumps` | backend/app/installer_artifacts.py:708-713 | The deletion loop terminates, and when its commands work it leaves no jump. |
| `NetworkIsolation.Firewall.RemoveIsolation` | backend/app/installer_artifacts.py:707-716 | One parent chain loses all jumps and its SHA chain, and reports a change exactly if there was something; the other chains are untouched. |
| `NetworkIsolation.Firewall.InstallIsolationChain` | backend/app/installer_artifacts.py:692-699 | On success the SHA chain holds exactly the rules and is jumped to first, even if earlier commands misreported; if all commands work it succeeds. |
| `NetworkIsolation.Firewall.Run` | backend/app/installer_artifacts.py:158-170 | A command acts or not; an exit status of zero means it acted, a timeout leaves it open. |
| `NetworkIsolation.Firewall.Install` | backend/app/installer_artifacts.py:742-749 | When nothing raises, both chains decide every packet and the state file exists; nothing raises if all commands work. |
| `NetworkIsolation.CommandKeepsDerived` | backend/app/installer_artifacts.py:685-761 | No command the agent issues touches anything but its own chains and the jumps in front of the original rules. |
| `NetworkIsolation.OutputRulesDecide` | backend/app/installer_artifacts.py:735-740 | First-match evaluation of the output rules, for any number and order of targets. |
| `NetworkIsolation.InstalledTablesIsolate` | backend/app/installer_artifacts.py:730-740 | The verdict of both chains does not depend on the machine's own rules, chains or policies. |
| `NetworkIsolation.TracesShow` | backend/app/installer_artifacts.py:720-722 | The tables are the original ones exactly if no jump and no SHA chain is left. |
| `NetworkIsolation.ControlPlaneTargets` | backend/app/installer_artifacts.py:668-683 | The targets are exactly the IPv4 addresses and ports among the resolver's answers. |
| `ScopeHierarchy.Database.CreateScopeRows` | backend/alembic/versions/20260717_0005_scope_hierarchy.py:118-173 | The rows can be created exactly if no two legacy pairs look alike once joined; then every pair has its location under its client and all keys are unique. |
| `ScopeHierarchy.Database.Upgrade` | backend/alembic/versions/20260717_0005_scope_hierarchy.py:276-326 | The backfill is total: every row ends at an existing location of an existing client, with the row's own tenant and site as keys. |
| `ScopeHierarchy.Database.BackfillTable` | backend/alembic/versions/20260717_0005_scope_hierarchy.py:176-194 | Every row gets the identifiers computed from its own fields, and nothing else changes. |
| `ScopeHierarchy.Database.CreateTenant` | backend/alembic/versions/20260717_0005_scope_hierarchy.py:139-158 | One tenant adds its client and, if needed, its location without site; it fails only if two pairs collide. |
| `ScopeHierarchy.Database.CreateSite` | backend/alembic/versions/20260717_0005_scope_hierarchy.py:160-173 | One site adds its location; it fails exactly if a pair already inserted has the same joined text. |
| `ScopeHierarchy.MigratedStates` | backend/alembic/versions/20260717_0005_scope_hierarchy.py:118-173 | After the migration a client is active exactly if it has a key and a location exactly if it and its client do; everything else is in quarantine, and nothing is archived. |
| `ScopeHierarchy.PlainPairsAreDistinct` | backend/alembic/versions/20260717_0005_scope_hierarchy.py:18-32 | Pairs without the null marker and without NUL never collide. |
| `ScopeHierarchy.NullMarkerCollides` | backend/alembic/versions/20260717_0005_scope_hierarchy.py:29-32 | A site spelled like the null marker collides with a missing site of the same tenant. |
| `ScopeHierarchy.MigratedKeysAreUnique` | backend/alembic/versions/20260717_0005_scope_hierarchy.py:287-310 | No identifier and no non-null key is given out twice, and every location belongs to a client. |
| `ScopeHierarchy.ResolvedScopeIsUsable` | backend/app/hierarchy.py:48-114 | Any success of the runtime lookup, on any tables, names an unarchived location of the returned unarchived client. |
| `ScopeHierarchy.CanonicalResolutionIff` | backend/app/hierarchy.py:62-77 | A canonical request gets a scope exactly if its identifiers, trimmed, are those of an unarchived location of an unarchived client and each legacy field it supplies, trimmed, is the key there; the scope is those identifiers with their keys. |
| `ScopeHierarchy.CanonicalConflictIff` | backend/app/hierarchy.py:30-45 | It is answered 409 exactly if it names a location of a client and one of them is archived, and 422 in every other case it fails. |
| `ScopeHierarchy.LegacyResolutionIff` | backend/app/hierarchy.py:79-114 | Where keys are unique, a legacy request gets its fields, trimmed, with the unarchived place they name, and the quarantine, if that is open, exactly if there is none. |
| `ScopeHierarchy.LegacyResolutionIsNamed` | backend/app/hierarchy.py:79-114 | On any tables the tenant and site of the result are the request's fields, trimmed, and the place is one they name or the quarantine. |
| `ScopeHierarchy.ResolutionAgreesIffCanonical` | backend/app/hierarchy.py:79-114 | Right after the backfill the runtime lookup of a row's legacy fields gives the stored client and location exactly if both fields are null or non-empty and trimmed. |
| `ControlAliases.PostureResults.Upgrade` | backend/alembic/versions/20260717_0004_observation_control_ids.py:23-70 | Keys stay unique per snapshot, no alias row is left, canonical rows are untouched, changed rows change only their keys, and the set of (snapshot, canonical key) pairs is kept; a second run changes nothing. |
| `ControlAliases.PostureResults.RewriteAlias` | backend/alembic/versions/20260717_0004_observation_control_ids.py:36-70 | The inner loop rewrites or deletes each row of one alias, and deletes only where a canonical row of the snapshot stays. |
| `ControlAliases.EarlierPassIsHarmless` | backend/alembic/versions/20260717_0002_canonical_control_ids.py:17-64 | Running the earlier migration first leads to the same observations. |
| `ControlAliases.MigrationAliasesAreWellFormed` | backend/alembic/versions/20260717_0004_observation_control_ids.py:11-20 | The alias tables of both migrations are free of duplicates and chains, and the earlier is part of the later. |
| `ControlAliases.MigrationAliasesAreIngestionAliases` | backend/app/control_registry.py:36-51 | Every alias of the migration is an alias of the same control at ingestion. |
| `ControlAliases.IngestionAliasesAreMigrationAliases` | backend/app/control_registry.py:36-51 | And the other way round. |
| `ControlAliases.ObservationControlIds` | backend/app/control_registry.py:149-161 | The ingestion map is built exactly if no key belongs to two controls, and then holds exactly the keys of all controls. |
| `ControlAliases.ObservationIsAcceptedIff` | backend/app/control_registry.py:164-178 | An observation is accepted exactly under a known key, in any case and with white space around it, and only for the control's own platform if it names one. |
| `ControlAliases.UpgradeAgreesWithIngestion` | backend/app/control_registry.py:164-178 | In a table that ingestion has filled, every row the migration leaves carries the key under which ingestion would store its old one, whatever its platform, and all keys stay trimmed and in lower case. |
| `ControlAliases.UpgradeAgreesWithIngestionIff` | backend/alembic/versions/20260717_0004_observation_control_ids.py:23-70 | In any table: a row the migration leaves carries that key exactly if its old key was an alias, or trimmed and in lower case; the migration touches nothing else. |
| `ControlAliases.NormalizedKeyIsNormal` | backend/app/utils.py:177-179 | The stored keys are exactly the texts that normalisation leaves alone: trimmed and in lower case. |
| `ControlAliases.MixedCaseKeyIsLeftAlone` | backend/alembic/versions/20260717_0004_observation_control_ids.py:28-35 | One mixed-case key that only something other than ingestion can have stored: the migration keeps it, ingestion stores the lower-case key. |
| `Authorization.LoadUserGrants` | backend/app/authorization.py:171-203 | One grant for each unrevoked binding whose role has a permission, with exactly that role's permissions and that binding's scope. |
| `Authorization.CheckMeansSomeBindingCovers` | backend/app/authorization.py:210-220 | The check holds exactly if some unrevoked binding's role has the permission and its scope covers the row. |
| `Authorization.ScopeClause` | backend/app/authorization.py:308-331 | For all grants and all rows, with NULLs evaluated by SQL's three truth values: a row passes the filter exactly if the check permits its scope. |
| `Authorization.TruthIsOrdered` | backend/app/authorization.py:308-331 | AND gives the lesser and OR the greater of false, unknown and true. |
| `Authorization.ClientScopeClause` | backend/app/authorization.py:334-347 | The client filter selects a client exactly if a grant with the permission is global or names it. |
| `Authorization.ReachesIffSomeScopePermitted` | backend/app/authorization.py:334-347 | With well-formed grants that is the case exactly if some scope inside the client is permitted. |
| `Authorization.ClientFilterIsExactIff` | backend/app/models.py:146-164 | Over the locations that exist, the filter is exact unless the client has none and a global or client grant reaches it. |
| `Authorization.ClientWithoutLocationsIsSelected` | backend/app/authorization.py:345-347 | Such a client is selected although no location of it is permitted. |
| `UtcText.TextOrderIsTimeOrder` | backend/app/utils.py:60-67 | For years 1000 to 9999 the order of printed timestamps is the order of the instants, and equal texts are equal instants. |
| `UtcText.SecondsFollowFields` | backend/app/utils.py:60-67 | The calendar counts every second once, in field order. |
| `UtcText.PlusAdds` | backend/app/auth.py:238-241 | Adding a duration advances the instant by exactly that many seconds. |
| `BrowserSession.FitsIff` | backend/app/auth.py:238-241 | A duration can be added exactly if there is a moment with a four-digit year that much later. |
| `BrowserSession.BrowserSessionRow.Authenticate` | backend/app/auth.py:201-258 | Accepts and updates the row exactly as the session step prescribes. |
| `BrowserSession.AcceptedIsInTime` | backend/app/auth.py:216-222 | The text comparisons accept exactly the requests before both expiries. |
| `BrowserSession.LifetimeIsBounded` | backend/app/api/endpoints/authentication.py:246-259 | Whatever requests and revocations came before, an accepted request lies before the absolute expiry given at login and within the idle period after the time printed as last seen. |
| `BrowserSession.SessionIsIdeal` | backend/app/auth.py:201-258 | After any history, even with a clock that goes back, the stored texts let in exactly the requests the clock would: the session is not revoked, and it is less than the idle period since its last accepted request and less than the lifetime since login. |
| `BrowserSession.DeadStaysDead` | backend/app/auth.py:216-222 | Once expired or revoked, every later request is rejected, if the clock does not go back. |
| `SessionCache.Interleave` | frontend/lib/api.ts:1240-1330 | Under every interleaving of loads, refreshes and clears: listeners never see an answer older than the last refresh or clear, at most one load of the current generation is under way, and a defined cache is what was published last. |
| `SessionCache.SessionCache.Get` | frontend/lib/api.ts:1310-1330 | A caller gets the cached answer or joins the one load of the current generation. |
| `SessionCache.SessionCache.Respond` | frontend/lib/api.ts:1271-1286 | A 401 of an older generation neither changes the cache nor is published. |
| `SessionCache.SessionCache.Parse` | frontend/lib/api.ts:1287-1296 | Neither is a session of an older generation. |
| `SessionCache.SessionCache.Finish` | frontend/lib/api.ts:1322-1326 | The finally callback forgets only its own load. |
| `SessionCache.SessionCache.Clear` | frontend/lib/api.ts:1303-1308 | A clear publishes and caches the empty session and abandons the load under way. |
| `ReleaseManifest.VerifyRelease` | scripts/sha-agent-package.py:324-368 | Acceptance is exactly: schema, product and pinned key match, the manifest is within 1 MiB, rows describe distinct safe paths as they are, there are no links, and all other files are among the five permitted names. |
| `ReleaseManifest.AcceptedFilesAreDescribed` | scripts/sha-agent-package.py:334-368 | In an accepted release every other file is described under its own name with its size and digest, and every row describes such a file. |
| `ReleaseManifest.CreatedManifestIsAccepted` | scripts/sha-agent-package.py:215-233 | A manifest made from a stage is accepted for the unchanged release under its own key exactly if it lists a file and is not larger than 1 MiB. |
| `ReleaseManifest.ArtifactRows` | scripts/sha-agent-package.py:198-212 | Lists each file outside the excluded names exactly once, and fails exactly on links and special files. |
| `ReleaseManifest.CheckRows` | scripts/sha-agent-package.py:334-350 | Succeeds exactly if all rows match distinct files of the tree. |
| `ReleaseManifest.PathCheckIsProper` | scripts/sha-agent-package.py:341-343 | The path check accepts exactly the paths without empty, current or parent components. |
| `ControlPlaneUrl.NormalizationIsIdempotentIff` | scripts/sha-agent-package.py:142-164 | Normalising a normalised URL gives it again exactly if the original names a port or a host without white space at its end. |
| `ControlPlaneUrl.UrlIsAcceptedIff` | scripts/sha-agent-package.py:142-164 | A URL is accepted exactly if, without the white space around it, it is a scheme, a host and at most a port in range: HTTPS, or HTTP to this machine where that is asked for; no user, no path but a slash, no query and no fragment; brackets exactly around an IPv6 address. The result is made of these parts alone. |
| `ControlPlaneUrl.NormalizedForm` | scripts/sha-agent-package.py:142-164 | What normalisation returns: an allowed scheme, a lower-case host with brackets exactly around IPv6 addresses, and a canonical port in range. |
| `ControlPlaneUrl.NormalUrlIsKept` | scripts/sha-agent-package.py:162-164 | A trimmed URL in that form is left alone. |
| `ControlPlaneUrl.SpaceBeforeSlashIsKept` | scripts/sha-agent-package.py:151-152 | White space before the slash of an empty path stays in the host, and such a URL is not kept by a second normalisation. |
| `BootstrapManifest.ParseOfPrint` | scripts/sha-agent-package.py:132-139 | Every printed timestamp is read back to the microsecond. |
| `BootstrapManifest.ParseOfToUtcZ` | backend/app/utils.py:60-67 | So is every timestamp the backend stores. |
| `BootstrapManifest.CreatedManifestIff` | scripts/sha-agent-package.py:428-473 | A manifest is made exactly from a lifetime of at most a day, a token file with one token, a matching release, 1 to 1000 uses, a known policy, safe values and a URL that normalises; it carries these arguments, trimmed, and the release's version and digest. |
| `BootstrapManifest.AcceptedManifestIff` | scripts/sha-agent-package.py:511-564 | A configuration is made exactly from a current manifest within 64 KiB that is signed under the pinned key, names this package and release, carries a well-formed token and terms, and has its CA bundle beside it. |
| `BootstrapManifest.CreatedManifestRoundTrips` | scripts/sha-agent-package.py:511-564 | A created manifest is accepted for the same platform, release, key and bundle and gives back its token, profile and URL exactly if it has not expired, its file is within 64 KiB and the URL given at creation names a port or a host without white space at its end. |
| `BootstrapManifest.CreatedManifestIsInTime` | scripts/sha-agent-package.py:519-522 | The time checks on a created manifest hold exactly before its expiry. |
| `BootstrapManifest.CreatedMetadataIsGood` | scripts/sha-agent-package.py:523-532 | A created manifest passes all metadata checks. |
| `BootstrapManifest.CreatedTokenIsAccepted` | scripts/sha-agent-package.py:428-433 | The token read at creation is accepted again with the same identifier. |
| `BootstrapManifest.SafeValueIsKept` | scripts/sha-agent-package.py:107-111 | Checking a safe value again gives the same value. |

## Left out

- HTTP, TLS, JSON, the ORM and the migration framework: requests are messages, rows and documents are records, tables
  are maps from their keys; JSON encoding and decoding are taken to undo each other.
- HMAC, SHA-256, signatures and DPAPI: replaced by injectivity as stated above.
- Windows: ACLs, replacement of files and the service manager are foreign calls.
- The agent's state struct is changed in place and then saved; the model passes the changed state as a value, since the
  in-memory copy is dropped on every error. Only the agent's config is kept as object fields.
- Revocation and expiry of tokens, credentials and scopes are the flags `live` and `scopeActive` of a token row and are
  fixed during a run of the identity protocol; the operator handlers that change them are not modelled.
- The `last_used_at`, `updated_at` and audit columns are not modelled.
- The agent's legacy token mode (`shouldUseDeviceIdentity`), status output, collectors and response actions.
- The walk over path components in `normalizePrivateFilePath`: the private directory is already resolved here.
- iptables rules of others that jump to SHA chains, IPv6 rules, and the SSH drop-in of the same script.
- The order of SQL results, of sorted keys and of directory listings: loops over them take any order.
- ScopeHierarchy.Database.CreateScopeRows: the legacy pairs of both tables arrive as one set, as their UNION does.
- SQLite backup and restore helpers of the migrations, and downgrades.
- How source packs define controls: the control identifiers, which include every alias target, and their platforms are
  arguments.
- DeviceAgent.Agent.EnsureDeviceIdentity: where the power may fail during the call, a start whose last save failed after
  the rename is not covered, because sending from it is what locks the device out; `RecoverFromReachable` covers such a
  start where the power holds.
- DeviceAgent.Agent.RotateDeviceCredential: likewise.
- DeviceAgent.Agent.ClearPersistedBootstrapCredentials: where the power may fail, the clear with an endpoint that is not
  durable yet is not run by the agent's methods; `CodeCanClearTooEarly` shows what it does if the state file has a
  directory of its own, and `SecretsAreKeptInOneDirectory` that it is harmless if not.
- UtcText.ToUtcZ: years before 1000, which `strftime` prints without padding, are outside its domain.
- BootstrapManifest.Parse: other ISO 8601 forms than the one the script prints are not recognised.
- ControlPlaneUrl.NormalizedUrl: non-ASCII hosts and the future-version form of bracketed hosts are not modelled;
  whether a text is an IPv6 address is a parameter.
- Listeners of the session cache that call back into it while it publishes.
- `create_index` and `verify_index`, trust policies, key rotation lists and file permissions of the packaging script.
- The route and role tables, response-action leasing and approvals, React components and demo data: case analysis or
  user interface.
