// The charm-reconciliation step of the CAAS operator worker: one call
// fetches the desired charm from the charm getter, records its modified
// version, and, when the deployed charm differs, stages and deploys the new
// one and persists the local state.
//
// Collaborators (the charm getter, the status setter, the deployer and the
// state file) are not part of this model. Their answers for one call are
// given as a `Replies` value, and every call made to them is appended to a
// ghost trace, so that what is called, with what, and in which order can be
// stated exactly.

module CaasOperator {

  /** A charm URL as the source handles it: a pointer. Comparing two
      `CharmURL?` values with `==` compares references, exactly as comparing
      two `*charm.URL` values does; `text` is the URL the object denotes. */
  class CharmURL {
    const text: string

    constructor (text: string)
      ensures this.text == text
    {
      this.text := text;
    }
  }

  /** The error values the step distinguishes: the deployer's sentinel
      conflict error, and every other error. */
  datatype ErrorValue = ErrConflict | OtherError(message: string)

  /** A Go `error`: nil, or an error value. */
  datatype MaybeError = NoError | Err(error: ErrorValue)

  /** The workload statuses this step sets. */
  datatype StatusValue = Maintenance | Error

  /** The arguments handed to the status setter's format string. */
  datatype StatusArg = UrlArg(url: CharmURL?) | NilArg

  /** What the charm getter returns when it succeeds. The force-upgrade flag
      is returned by the getter and ignored by the step. */
  datatype CharmResponse = CharmResponse(
    curl: CharmURL?,
    forceUpgrade: bool,
    sha256: string,
    modifiedVersion: int)

  datatype GetterOutcome = GetterOk(response: CharmResponse) | GetterErr(error: ErrorValue)

  /** The descriptor handed to the deployer's Stage: the charm to download
      and the SHA-256 digest its archive must have. */
  datatype CharmInfo = CharmInfo(curl: CharmURL?, sha256: string) {

    /** The charm's URL: the stored one, unchanged. */
    function URL(): (u: CharmURL?)
      ensures u == curl
    {
      curl
    }

    /** The archive digest: the stored one, and never an error. */
    function ArchiveSha256(): (r: (string, MaybeError))
      ensures r.0 == sha256
      ensures r.1 == NoError
    {
      (sha256, NoError)
    }
  }

  /** The value of a local state record: the deployed charm and the charm's
      modified version. */
  datatype StateRecord = StateRecord(charmURL: CharmURL?, charmModifiedVersion: int)

  /** One call made to a collaborator, with the arguments it received. */
  datatype Call =
    | GetCharm(application: string)
    | SetStatus(status: StatusValue, message: string, args: seq<StatusArg>)
    | StageCharm(info: CharmInfo)
    | DeployCharm
    | WriteState(record: StateRecord)

  /** How each collaborator answers during one reconciliation step. The
      getter, Stage, Deploy and the state file are each called at most once
      per step; the status setter is called at most twice, once for the
      Maintenance status and once for the Error status, and each of those
      calls has its own reply. Every call's arguments are fixed by the step,
      so any behaviour of the real collaborators is one of these values. */
  datatype Replies = Replies(
    charm: GetterOutcome,
    maintenanceStatus: MaybeError,
    stage: MaybeError,
    deploy: MaybeError,
    errorStatus: MaybeError,
    write: MaybeError)

  /** What one step does: the local state it leaves, the collaborator calls
      it makes, in order, and what it returns. */
  datatype Step = Step(after: StateRecord, calls: seq<Call>, result: MaybeError)

  const DownloadingMessage := "downloading charm (%s)"
  const UpgradeFailedMessage := "upgrade failed"

  /** The reconciliation step as a function of the local state before the
      call and the collaborators' replies. */
  function Reconcile(application: string, before: StateRecord, replies: Replies): (s: Step)
    // The charm getter is always asked first, and at most five calls are made.
    ensures 1 <= |s.calls| <= 5 && s.calls[0] == GetCharm(application)
    // The deployed charm either stays or becomes the one the getter returned.
    ensures s.after.charmURL == before.charmURL
         || (replies.charm.GetterOk? && s.after.charmURL == replies.charm.response.curl)
  {
    var query := [GetCharm(application)];
    match replies.charm
    case GetterErr(e) => Step(before, query, Err(e))
    case GetterOk(resp) =>
      var recorded := before.(charmModifiedVersion := resp.modifiedVersion);
      if recorded.charmURL == resp.curl then
        Step(recorded, query, NoError)
      else
        var maintenance := query + [SetStatus(Maintenance, DownloadingMessage, [UrlArg(resp.curl)])];
        if replies.maintenanceStatus.Err? then
          Step(recorded, maintenance, replies.maintenanceStatus)
        else
          var staged := maintenance + [StageCharm(CharmInfo(resp.curl, resp.sha256))];
          if replies.stage.Err? then
            Step(recorded, staged, replies.stage)
          else
            var deployed := staged + [DeployCharm];
            if replies.deploy == Err(ErrConflict) then
              Step(recorded, deployed + [SetStatus(Error, UpgradeFailedMessage, [NilArg])], replies.errorStatus)
            else if replies.deploy.Err? then
              Step(recorded, deployed, replies.deploy)
            else
              var committed := recorded.(charmURL := resp.curl);
              Step(committed, deployed + [WriteState(committed)], replies.write)
  }

  /** The worker's local state, which the step updates in place. */
  class LocalState {
    var charmURL: CharmURL?
    var charmModifiedVersion: int

    constructor (charmURL: CharmURL?, charmModifiedVersion: int)
      ensures Record() == StateRecord(charmURL, charmModifiedVersion)
    {
      this.charmURL := charmURL;
      this.charmModifiedVersion := charmModifiedVersion;
    }

    /** The current value of the record. */
    function Record(): StateRecord
      reads this
    {
      StateRecord(charmURL, charmModifiedVersion)
    }
  }

  /** The operator worker of one application. */
  class Operator {
    const application: string
    /** Every collaborator call made so far, in order. */
    ghost var calls: seq<Call>

    constructor (application: string)
      ensures this.application == application && calls == []
    {
      this.application := application;
      calls := [];
    }

    /** Brings the deployed charm in line with the one the charm getter
        names, updating `localState` in place. */
    method EnsureCharm(localState: LocalState, replies: Replies) returns (err: MaybeError)
      modifies this`calls, localState
      ensures localState.Record() == Reconcile(application, old(localState.Record()), replies).after
      ensures calls == old(calls) + Reconcile(application, old(localState.Record()), replies).calls
      ensures err == Reconcile(application, old(localState.Record()), replies).result
    {
      calls := calls + [GetCharm(application)];
      var got := replies.charm;
      if got.GetterErr? {
        return Err(got.error);
      }
      var curl, sha256, vers := got.response.curl, got.response.sha256, got.response.modifiedVersion;
      localState.charmModifiedVersion := vers;
      if localState.charmURL == curl {
        return NoError;
      }

      calls := calls + [SetStatus(Maintenance, DownloadingMessage, [UrlArg(curl)])];
      if replies.maintenanceStatus.Err? {
        return replies.maintenanceStatus;
      }

      var info := CharmInfo(curl, sha256);
      calls := calls + [StageCharm(info)];
      if replies.stage.Err? {
        return replies.stage;
      }

      calls := calls + [DeployCharm];
      err := replies.deploy;
      if err.Err? {
        if err == Err(ErrConflict) {
          calls := calls + [SetStatus(Error, UpgradeFailedMessage, [NilArg])];
          err := replies.errorStatus;
        }
        return err;
      }
      localState.charmURL := curl;
      calls := calls + [WriteState(localState.Record())];
      err := replies.write;
    }
  }
}
