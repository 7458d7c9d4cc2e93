/**
 * AcceptInvitation: the accept-invitation mutation of
 * src/main/java/io/finn/signald/clientprotocol/v1/AcceptInvitationRequest.java.
 *
 * The request fetches the account's own profile-key credential, builds an accept-invite
 * change tagged with the account's UUID, commits it to the group authority, applies the
 * authority's answer to the cached group (new state, revision + 1), broadcasts the signed
 * change to the group, and only then writes the group to the account's store and saves.
 *
 * Everything outside the account is an abstract outcome carried by an `Env`: the profile-key
 * credential looked up for an address (or null), what the authority answers to a submitted
 * change, and whether sending and saving return or throw. The account records each outward
 * call in `Account.calls`, so the order of the steps can be stated.
 */
module AcceptInvitation {
  import opened Wrappers
  import opened Addresses

  type Bytes = seq<bv8>

  /** zkgroup ProfileKeyCredential, opaque. */
  datatype ProfileKeyCredential = ProfileKeyCredential(serialized: Bytes)

  /** DecryptedGroup: the group's membership and attributes, opaque. */
  datatype DecryptedGroup = DecryptedGroup(serialized: Bytes)

  /** GroupChange.Actions for an accept-invite change: the credential it presents and its source UUID. */
  datatype Actions = Actions(acceptInvite: ProfileKeyCredential, sourceUuid: Option<Uuid>)

  /** What is submitted to the authority: the change, against the group's cached revision. */
  datatype SubmittedChange = SubmittedChange(groupId: string, revision: int, actions: Actions)

  datatype CommitError = RevisionConflict(currentRevision: int) | CommitUnavailable | VerificationFailed

  /** GroupsV2Manager.commitChange: the authority's state and the signed GroupChange, or an exception. */
  datatype CommitOutcome =
    | Committed(group: DecryptedGroup, signedChange: Bytes)
    | CommitFailed(error: CommitError)

  /** The value of a storage Group: id, master key, decrypted state and revision. */
  datatype GroupSnapshot = GroupSnapshot(groupId: string, masterKey: Bytes, group: DecryptedGroup, revision: int)

  /** SignalServiceGroupV2 as built for the update message. */
  datatype GroupContextV2 = GroupContextV2(masterKey: Bytes, revision: int, signedGroupChange: Bytes)

  /** An outward call made by the request, in the order made. */
  datatype Call =
    | Commit(change: SubmittedChange)
    | Send(message: GroupContextV2, recipients: GroupSnapshot)
    | StoreUpdate(snapshot: GroupSnapshot)
    | Save

  /** The exception the request ends with. */
  datatype Failure =
    | OwnProfileKeyDoesNotExist
    | CommitRejected(error: CommitError)
    | SendThrew   // sendGroupV2Message threw
    | SaveThrew   // accountData.save threw

  /** JsonGroupV2Info, reduced to the fields this model keeps. */
  datatype GroupInfo = GroupInfo(groupId: string, revision: int, group: DecryptedGroup)

  /**
   * The answers of everything outside the account. `sendReturns` is false when
   * sendGroupV2Message throws; whatever it returns when it does not throw is ignored by the
   * request, so per-recipient delivery failures count as returning. `saveReturns` is false
   * when accountData.save throws.
   */
  datatype Env = Env(
    profileKeyCredential: SignalServiceAddress -> Option<ProfileKeyCredential>,
    authority: SubmittedChange -> CommitOutcome,
    sendReturns: bool,
    saveReturns: bool)

  /** The account's own address (Manager.getOwnAddress) and UUID (Manager.getUUID). */
  datatype OwnIdentity = OwnIdentity(address: SignalServiceAddress, uuid: Uuid)

  /** getRecipientProfileKeyCredential(getOwnAddress()).getProfileKeyCredential() */
  function OwnCredential(me: OwnIdentity, env: Env): Option<ProfileKeyCredential> {
    env.profileKeyCredential(me.address)
  }

  /** One run of the request: the group afterwards, the calls made, and the result. */
  datatype Outcome = Outcome(group: GroupSnapshot, calls: seq<Call>, result: Result<GroupInfo, Failure>)

  function Info(g: GroupSnapshot): GroupInfo {
    GroupInfo(g.groupId, g.revision, g.group)
  }

  /** groupOperations.createAcceptInviteChange: the change, not yet tagged with a source. */
  function CreateAcceptInviteChange(credential: ProfileKeyCredential): Actions {
    Actions(credential, None)
  }

  /** The change a run submits for group `g`, tagged with the account's UUID. */
  function Proposal(g: GroupSnapshot, me: OwnIdentity, credential: ProfileKeyCredential): SubmittedChange {
    SubmittedChange(g.groupId, g.revision, CreateAcceptInviteChange(credential).(sourceUuid := Some(me.uuid)))
  }

  /** The credential exists and the authority accepted the change. */
  predicate CommitSucceeded(g: GroupSnapshot, me: OwnIdentity, env: Env) {
    OwnCredential(me, env).Some? && env.authority(Proposal(g, me, OwnCredential(me, env).value)).Committed?
  }

  /** The position of each kind of call in the fixed order commit, send, store update, save. */
  function Step(c: Call): nat {
    match c
    case Commit(_) => 0
    case Send(_, _) => 1
    case StoreUpdate(_) => 2
    case Save => 3
  }

  /** The calls made are a prefix of commit, send, store update, save: none skipped, none repeated. */
  predicate InOrder(calls: seq<Call>) {
    |calls| <= 4 && forall i | 0 <= i < |calls| :: Step(calls[i]) == i
  }

  /** AcceptInvitationRequest.run on group `g`, as a function of the outside answers. */
  function Accept(g: GroupSnapshot, me: OwnIdentity, env: Env): (out: Outcome)
    ensures out.group.groupId == g.groupId && out.group.masterKey == g.masterKey
    ensures InOrder(out.calls)
    // no credential: fail before any call, group untouched
    ensures OwnCredential(me, env).None? ==> out == Outcome(g, [], Err(OwnProfileKeyDoesNotExist))
    // with a credential, the first call commits the change built from it and tagged with the own UUID
    ensures OwnCredential(me, env).Some? ==>
      |out.calls| >= 1 && out.calls[0] == Commit(Proposal(g, me, OwnCredential(me, env).value))
    // a rejected commit: only the commit call, the authority's own error, group untouched
    ensures OwnCredential(me, env).Some? && env.authority(Proposal(g, me, OwnCredential(me, env).value)).CommitFailed? ==>
      var answer := env.authority(Proposal(g, me, OwnCredential(me, env).value));
      out == Outcome(g, [Commit(Proposal(g, me, OwnCredential(me, env).value))], Err(CommitRejected(answer.error)))
    // the one commit is of the tagged change against the cached revision
    ensures forall c | c in out.calls && c.Commit? ::
      c.change.actions.sourceUuid == Some(me.uuid) && c.change.revision == g.revision && c.change.groupId == g.groupId
    // the group changes exactly when the commit succeeds, to the authority's state at revision + 1
    ensures out.group != g <==> CommitSucceeded(g, me, env)
    ensures CommitSucceeded(g, me, env) ==>
      var answer := env.authority(Proposal(g, me, OwnCredential(me, env).value));
      out.group == g.(group := answer.group, revision := g.revision + 1) &&
      |out.calls| >= 2 && out.calls[1].message.signedGroupChange == answer.signedChange
    // a failed commit: nothing after the commit call
    ensures !CommitSucceeded(g, me, env) ==> |out.calls| <= 1 && out.result.Err?
    // the broadcast carries the new revision and is sent to the new group; the store receives the new group
    ensures forall c | c in out.calls && c.Send? ::
      c.message.revision == out.group.revision && c.message.masterKey == out.group.masterKey && c.recipients == out.group
    ensures forall c | c in out.calls && c.StoreUpdate? :: c.snapshot == out.group
    // a failed send: no store update, no save
    ensures CommitSucceeded(g, me, env) && !env.sendReturns ==> |out.calls| == 2 && out.result == Err(SendThrew)
    // a send that returns: the store update and the save follow; the result is Ok unless the save throws
    ensures CommitSucceeded(g, me, env) && env.sendReturns ==>
      |out.calls| == 4 && out.calls[2] == StoreUpdate(out.group) && out.calls[3] == Save &&
      out.result == (if env.saveReturns then Ok(Info(out.group)) else Err(SaveThrew))
    ensures out.result.Ok? <==> |out.calls| == 4 && env.saveReturns
    ensures out.result.Ok? ==> out.result.value == Info(out.group)
  {
    match OwnCredential(me, env)
    case None => Outcome(g, [], Err(OwnProfileKeyDoesNotExist))
    case Some(credential) =>
      var change := Proposal(g, me, credential);
      match env.authority(change)
      case CommitFailed(e) => Outcome(g, [Commit(change)], Err(CommitRejected(e)))
      case Committed(state, signedChange) =>
        var applied := g.(group := state, revision := g.revision + 1);
        var send := Send(GroupContextV2(applied.masterKey, applied.revision, signedChange), applied);
        if !env.sendReturns then
          Outcome(applied, [Commit(change), send], Err(SendThrew))
        else if !env.saveReturns then
          Outcome(applied, [Commit(change), send, StoreUpdate(applied), Save], Err(SaveThrew))
        else
          Outcome(applied, [Commit(change), send, StoreUpdate(applied), Save], Ok(Info(applied)))
  }

  /** The group after a series of runs, each with its own outside answers. */
  function AcceptAll(g: GroupSnapshot, me: OwnIdentity, envs: seq<Env>): GroupSnapshot
    decreases |envs|
  {
    if envs == [] then g else AcceptAll(Accept(g, me, envs[0]).group, me, envs[1..])
  }

  /** How many of those runs had their commit accepted. */
  function CommitCount(g: GroupSnapshot, me: OwnIdentity, envs: seq<Env>): nat
    decreases |envs|
  {
    if envs == [] then 0
    else
      (if CommitSucceeded(g, me, envs[0]) then 1 else 0) +
      CommitCount(Accept(g, me, envs[0]).group, me, envs[1..])
  }

  /** After a series of runs the revision has grown by exactly the number of accepted commits. */
  lemma {:induction false} RevisionCountsCommits(g: GroupSnapshot, me: OwnIdentity, envs: seq<Env>)
    ensures AcceptAll(g, me, envs).revision == g.revision + CommitCount(g, me, envs)
    ensures AcceptAll(g, me, envs).groupId == g.groupId
    decreases |envs|
  {
    if envs != [] {
      RevisionCountsCommits(Accept(g, me, envs[0]).group, me, envs[1..]);
    }
  }

  /** storage Group: a cached group whose state and revision are updated in place. */
  class Group {
    const groupId: string
    const masterKey: Bytes
    var group: DecryptedGroup
    var revision: int

    constructor (groupId: string, masterKey: Bytes, group: DecryptedGroup, revision: int)
      ensures Snapshot() == GroupSnapshot(groupId, masterKey, group, revision)
    {
      this.groupId := groupId;
      this.masterKey := masterKey;
      this.group := group;
      this.revision := revision;
    }

    function Snapshot(): GroupSnapshot
      reads this
    {
      GroupSnapshot(groupId, masterKey, group, revision)
    }
  }

  /**
   * One account: its Manager (own address and UUID, the network calls) and its AccountData
   * (the cached v2 groups). `calls` records the outward calls in order.
   */
  class Account {
    const account: string
    const ownAddress: SignalServiceAddress
    const ownUuid: Uuid
    var groupsV2: map<string, Group>
    var calls: seq<Call>

    /** Every cached group is filed under its own id. */
    ghost predicate Valid()
      reads this
    {
      forall id | id in groupsV2 :: groupsV2[id].groupId == id
    }

    constructor (account: string, ownAddress: SignalServiceAddress, ownUuid: Uuid, groupsV2: map<string, Group>)
      requires forall id | id in groupsV2 :: groupsV2[id].groupId == id
      ensures Valid() && this.groupsV2 == groupsV2 && calls == []
      ensures this.account == account && this.ownAddress == ownAddress && this.ownUuid == ownUuid
    {
      this.account := account;
      this.ownAddress := ownAddress;
      this.ownUuid := ownUuid;
      this.groupsV2 := groupsV2;
      this.calls := [];
    }

    /** GroupsV2Manager.commitChange: submits the change against the group's cached revision. */
    method CommitChange(group: Group, change: Actions, authority: SubmittedChange -> CommitOutcome)
      returns (outcome: CommitOutcome)
      modifies this`calls
      ensures outcome == authority(SubmittedChange(group.groupId, group.revision, change))
      ensures calls == old(calls) + [Commit(SubmittedChange(group.groupId, group.revision, change))]
    {
      var submitted := SubmittedChange(group.groupId, group.revision, change);
      calls := calls + [Commit(submitted)];
      outcome := authority(submitted);
    }

    /**
     * Manager.sendGroupV2Message: sends the update message to the members of `recipients`.
     * `returned` is false when the call throws; its return value is not modelled.
     */
    method SendGroupV2Message(message: GroupContextV2, recipients: Group, completes: bool) returns (returned: bool)
      modifies this`calls
      ensures returned == completes
      ensures calls == old(calls) + [Send(message, recipients.Snapshot())]
    {
      calls := calls + [Send(message, recipients.Snapshot())];
      returned := completes;
    }

    /** accountData.groupsV2.update: files the group under its id and writes it to the store. */
    method UpdateGroup(group: Group)
      requires Valid()
      modifies this`groupsV2, this`calls
      ensures Valid() && groupsV2 == old(groupsV2)[group.groupId := group]
      ensures calls == old(calls) + [StoreUpdate(group.Snapshot())]
    {
      groupsV2 := groupsV2[group.groupId := group];
      calls := calls + [StoreUpdate(group.Snapshot())];
    }

    /** accountData.save: `returned` is false when it throws. */
    method Save(completes: bool) returns (returned: bool)
      modifies this`calls
      ensures returned == completes && calls == old(calls) + [Call.Save]
    {
      calls := calls + [Call.Save];
      returned := completes;
    }

    function Identity(): OwnIdentity {
      OwnIdentity(ownAddress, ownUuid)
    }
  }

  /** The request's fields: the account to act as and the group to join. */
  datatype AcceptInvitationRequest = AcceptInvitationRequest(account: string, groupID: string)

  /**
   * AcceptInvitationRequest.run. `m` is the account `req.account` names; the group must be
   * cached, since the lookup's result is used without a null check.
   */
  method Run(req: AcceptInvitationRequest, m: Account, env: Env) returns (result: Result<GroupInfo, Failure>)
    requires m.Valid() && m.account == req.account
    requires req.groupID in m.groupsV2
    modifies m, m.groupsV2[req.groupID]
    ensures m.Valid() && m.groupsV2 == old(m.groupsV2)
    ensures var out := Accept(old(m.groupsV2[req.groupID].Snapshot()), m.Identity(), env);
      m.groupsV2[req.groupID].Snapshot() == out.group &&
      m.calls == old(m.calls) + out.calls &&
      result == out.result
  {
    var group := m.groupsV2[req.groupID];
    var ownProfileKeyCredential := env.profileKeyCredential(m.ownAddress);
    if ownProfileKeyCredential.None? {
      return Err(OwnProfileKeyDoesNotExist);
    }
    var change := CreateAcceptInviteChange(ownProfileKeyCredential.value);
    change := change.(sourceUuid := Some(m.ownUuid));

    var groupChangePair := m.CommitChange(group, change, env.authority);
    if groupChangePair.CommitFailed? {
      return Err(CommitRejected(groupChangePair.error));
    }
    group.group := groupChangePair.group;
    group.revision := group.revision + 1;

    var masterKey := group.masterKey;
    var signedChange := groupChangePair.signedChange;
    var updateMessage := GroupContextV2(masterKey, group.revision, signedChange);
    var sent := m.SendGroupV2Message(updateMessage, group, env.sendReturns);
    if !sent {
      return Err(SendThrew);
    }

    m.UpdateGroup(group);
    var saved := m.Save(env.saveReturns);
    if !saved {
      return Err(SaveThrew);
    }
    result := Ok(Info(group.Snapshot()));
  }
}
