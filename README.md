# signald: accept-invitation, identity-key list and address resolver, in Dafny

This project models three pieces of signald, a daemon that exposes Signal's group and
trust operations over a request/response protocol:

- **Accepting a v2 group invitation** (`AcceptInvitationRequest.run`), module
  `AcceptInvitation`, file `accept_invitation.dfy`. The request fetches the account's own
  profile-key credential and fails with `OwnProfileKeyDoesNotExist` if there is none. It
  then builds an accept-invite change tagged with the account's UUID and commits it to the
  group authority. Next it overwrites the cached group's state with the authority's answer
  and increments the revision by one. Then it broadcasts the signed change with the new
  revision, and only after that updates the account's group store and saves it.
  A storage `Group` and the `Account` (manager plus account data) are classes whose
  fields the methods update in place. `Account.calls` records the outward calls (commit,
  send, store update, save) in order. The pure function `Accept` states what one run
  does, and `Run` is proved to do exactly that to the heap.
- **The identity-key list** (`IdentityKeyList`), module `IdentityKeys`, file
  `identity_keys.dfy`. This is a class whose constructor loops over the peer's stored key
  rows and calls `AddKey` for each. `AddKey` appends the row with its safety number, or
  nothing when the safety-number computation returns null. The constructor is proved to
  build `Entries(...)`. The lemmas about `Entries` state the count (N rows, M null, N − M
  entries), the order, which row each entry belongs to, and that a bad key hides nothing.
- **The address resolver** (`AddressUtil`), module `Addresses`, file `addresses.dfy`.
  `FromIdentifier` classifies an identifier as a UUID or a phone number. `Update`
  builds a merged copy of two `JsonAddress` objects and then returns the first one
  unchanged, exactly as the code does (see Findings).

`wrappers.dfy` holds `Option` (a Java reference that may be null) and `Result` (a call
that returns or throws).

Outside collaborators are parameters:
- The profile-key credential looked up for an address, the authority's answer to a
  submitted change, and whether sending and saving return or throw are fields of an
  `Env` value. `Run` looks up the credential for the account's own address.
- `SafetyNumberHelper.computeFingerprint` is a function-valued field of the list.
- `JsonAddress.matches` is a relation passed to `Update`.

The UUID text form used by `UuidUtil.isUuid` and `parseOrNull` is an assumption. It is
taken to be the 8-4-4-4-12 hexadecimal form of section 3 of RFC 4122, read
case-insensitively and printed in lower case, as `java.util.UUID` does.

Three points of the request's code shape the model:
- It broadcasts before it persists. `AcceptInvitationRequest.java` line 84 comes
  before lines 86-87, so a send that throws means no store update and no save, while the
  cached `Group` object has already been changed in memory.
- Line 84 ignores what `sendGroupV2Message` returns: only an exception stops the store
  update and the save. `Env.sendReturns == false` stands for that exception
  (`Failure.SendThrew`); delivery failures reported without throwing lead to the store
  update and save like a full delivery.
- The group lookup at line 62 is never null-checked, so its success is a precondition
  of `Run`. The model has no unknown-group error.

## Model

| member | source | states |
|---|---|---|
| `Addresses.FromIdentifier` | src/main/java/io/finn/signald/util/AddressUtil.java:25-31 | an identifier in UUID form gives uuid = parseOrNull(identifier) and no number; any other gives number = identifier and no uuid; exactly one of the two is always set |
| `Addresses.ParseOrNull` | src/main/java/io/finn/signald/util/AddressUtil.java:26-27 | the parse yields a UUID exactly when the text is in UUID form, so the UUID branch never builds an empty address |
| `Addresses.ParseFormat` | src/main/java/io/finn/signald/util/AddressUtil.java:27 | parsing the printed form of any UUID gives that UUID back |
| `Addresses.FormatParse` | src/main/java/io/finn/signald/util/AddressUtil.java:26-27 | printing a parsed UUID gives the input text back in lower case |
| `Addresses.FromIdentifierRoundTrip` | src/main/java/io/finn/signald/util/AddressUtil.java:25-31 | an address with exactly one field (and a number not in UUID form) is recovered from its identifier |
| `Addresses.IdentifierOfFromIdentifier` | src/main/java/io/finn/signald/util/AddressUtil.java:25-31 | the identifier of a resolved address is the input itself, lower-cased when it is a UUID |
| `Addresses.UuidAndNumberDiffer` | src/main/java/io/finn/signald/util/AddressUtil.java:25-31 | a UUID-form identifier and a non-UUID identifier never resolve to the same address |
| `Addresses.Merge` | src/main/java/io/finn/signald/util/AddressUtil.java:35-41 | the merged record takes update's number and uuid where they are non-null and keeps old's otherwise |
| `Addresses.MergeLaws` | src/main/java/io/finn/signald/util/AddressUtil.java:35-41 | merging is idempotent, an empty update changes nothing, merging an address with itself changes nothing |
| `Addresses.Update` | src/main/java/io/finn/signald/util/AddressUtil.java:33-43 | requires old.matches(update); returns old itself with its fields unchanged, while the record it built and discarded is the merge |
| `Addresses.UpdateLosesLearnedUuid` | src/main/java/io/finn/signald/util/AddressUtil.java:42 | for a number-only address and an update carrying a UUID for it, the merge differs from old, so returning old loses the UUID |
| `Addresses.UpdateMerged` | src/main/java/io/finn/signald/util/AddressUtil.java:33-43 | the corrected update returns a fresh address equal to the merge |
| `IdentityKeys.NewEntries` | src/main/java/io/finn/signald/clientprotocol/v1/IdentityKeyList.java:52-56 | one row contributes nothing exactly when its fingerprint is null, otherwise one entry holding that row and its own fingerprint |
| `IdentityKeys.Entries` | src/main/java/io/finn/signald/clientprotocol/v1/IdentityKeyList.java:46-56 | no more entries than rows; every entry's row is an input row and its fingerprint is computeFingerprint(ownAddress, ownKey, address, row.key) |
| `IdentityKeys.KeptIndices` | src/main/java/io/finn/signald/clientprotocol/v1/IdentityKeyList.java:46-56 | the positions of the rows with a non-null fingerprint, strictly increasing, containing a position if and only if its fingerprint is non-null |
| `IdentityKeys.EntriesCount` | src/main/java/io/finn/signald/clientprotocol/v1/IdentityKeyList.java:46-56 | N rows of which M have a null fingerprint give exactly N − M entries |
| `IdentityKeys.EntriesFollowRows` | src/main/java/io/finn/signald/clientprotocol/v1/IdentityKeyList.java:46-56 | the j-th entry is the j-th row with a non-null fingerprint, paired with its own fingerprint, so entries keep the rows' relative order |
| `IdentityKeys.EntriesAppend` | src/main/java/io/finn/signald/clientprotocol/v1/IdentityKeyList.java:46-48 | the entries of two row lists one after the other are the two entry lists one after the other |
| `IdentityKeys.SkippedRowHidesNothing` | src/main/java/io/finn/signald/clientprotocol/v1/IdentityKeyList.java:52-55 | a row with a null fingerprint adds no entry and removes none of the entries of the rows around it |
| `IdentityKeys.IdentityKeyList.constructor` | src/main/java/io/finn/signald/clientprotocol/v1/IdentityKeyList.java:38-49 | address is set from a in every case; a null row list gives no identities, otherwise identities are Entries of the rows |
| `IdentityKeys.IdentityKeyList.AddKey` | src/main/java/io/finn/signald/clientprotocol/v1/IdentityKeyList.java:51-57 | appends at most one entry, the row's own entry when its fingerprint is non-null, and leaves existing entries untouched |
| `AcceptInvitation.Accept` | src/main/java/io/finn/signald/clientprotocol/v1/AcceptInvitationRequest.java:58-89 | calls are a prefix of commit, send, store update, save; no own credential means no call, group unchanged, OwnProfileKeyDoesNotExist; with a credential the first call commits the change built from it, tagged with the own UUID, against the cached revision; a rejected commit makes only that call, leaves the group unchanged and reports the authority's own error; the group changes if and only if the commit succeeds, then to the authority's state at revision + 1; the broadcast carries the new revision, the master key and the authority's signed bytes; a send that throws means no store update and no save; a send that returns is followed by the store update of the new group and the save, and the result is the new group's info unless the save throws (SaveThrew) |
| `AcceptInvitation.RevisionCountsCommits` | src/main/java/io/finn/signald/clientprotocol/v1/AcceptInvitationRequest.java:74-76 | after any series of runs the revision equals the initial revision plus the number of accepted commits |
| `AcceptInvitation.Account.CommitChange` | src/main/java/io/finn/signald/clientprotocol/v1/AcceptInvitationRequest.java:74 | submits the change against the group's cached revision, records the call, returns the authority's answer |
| `AcceptInvitation.Account.SendGroupV2Message` | src/main/java/io/finn/signald/clientprotocol/v1/AcceptInvitationRequest.java:81-84 | records the update message and the group it goes to; reports whether the call returned or threw (its return value is ignored at line 84) |
| `AcceptInvitation.Account.UpdateGroup` | src/main/java/io/finn/signald/clientprotocol/v1/AcceptInvitationRequest.java:86 | files the group under its id and records the store write of its current value |
| `AcceptInvitation.Account.Save` | src/main/java/io/finn/signald/clientprotocol/v1/AcceptInvitationRequest.java:87 | records the save and reports whether it returned or threw |
| `AcceptInvitation.Run` | src/main/java/io/finn/signald/clientprotocol/v1/AcceptInvitationRequest.java:58-89 | the cached group object, the recorded calls and the result are exactly those of Accept on the group's prior value; the group map itself is unchanged |

## Left out

- `Manager.get(account)` (line 60): the caller passes the account explicitly, so `NoSuchAccountException` is not modelled.
- `GroupSecretParams.deriveFromMasterKey` and the group operations (lines 63-64): zkgroup cryptography, not modelled; their exceptions are not modelled either.
- `getRecipientProfileKeyCredential` (line 65): a profile lookup over the network, reduced to a function from address to optional credential in `Env`; exceptions from the lookup itself are not modelled.
- `createAcceptInviteChange` (line 71): zkgroup construction, modelled as a change that carries the credential it presents.
- `GroupsV2Manager.commitChange` (line 74): a network call, modelled as the abstract answer `Env.authority`; its internals (how it tags the target revision, its exceptions' exact classes) are not part of this model.
- `sendGroupV2Message` (line 84): only whether it throws is modelled; its return value (per-recipient results) is ignored by the request and not modelled, and neither is recipient resolution.
- `accountData.groupsV2.update` and `accountData.save` (lines 86-87): storage semantics (SQL, files) are not modelled, only the order of the writes and the value written.
- `getJsonGroupV2Info` (line 88): reduced to the group's id, revision and state.
- AcceptInvitation.Accept: the revision is an unbounded integer; a Java `int` field would wrap after 2^31 − 1 revisions, which no group reaches.
- `UuidUtil.isUuid` and `parseOrNull` are not part of this model; the RFC 4122 text form above is an assumption about them.
- `JsonAddress.matches` is not part of this model: it is an arbitrary relation, and the Java `assert` (checked only when assertions are enabled) becomes a precondition of `Update`.
- The `relay` field of `JsonAddress` and `SignalServiceAddress` is not modelled.
- `SafetyNumberHelper.computeFingerprint` is any function of its four inputs; whether it is symmetric under swapping own and peer is not addressed.
- `IdentityKeysTable.IdentityKeyRow` is not part of this model: its fields besides the key are carried, not interpreted.
- JSON and documentation annotations, per-group serialization, timeouts and cancellation: none of these files contains such logic.

## Findings

| source | as written | input that shows it | evidently intended | confidence | as-written member | corrected member |
|---|---|---|---|---|---|---|
| src/main/java/io/finn/signald/util/AddressUtil.java:42 | `update` builds the merged `result` and then returns `old`, so the merge is discarded | old = number-only address for n, update = the same number n with a UUID u: the merge has uuid u, the returned address has none | return `result`, the merged address | high; not executed | `Addresses.Update` (shown by `Addresses.UpdateLosesLearnedUuid`) | `Addresses.UpdateMerged` |
