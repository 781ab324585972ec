// Properties of one reconciliation step, stated about `Reconcile`, which
// `Operator.EnsureCharm` is proved to follow.

module DownloadProperties {
  import opened CaasOperator

  /** When the charm getter fails, its error is returned, the local state is
      untouched, and no other collaborator is called. */
  lemma GetterFailureIsReturned(application: string, before: StateRecord, replies: Replies)
    requires replies.charm.GetterErr?
    ensures var s := Reconcile(application, before, replies);
      s.result == Err(replies.charm.error) && s.after == before && s.calls == [GetCharm(application)]
  {
  }

  /** Whenever the getter succeeds, the modified version it returned is
      recorded, on every path that follows, failing ones included. */
  lemma ModifiedVersionRecorded(application: string, before: StateRecord, replies: Replies)
    requires replies.charm.GetterOk?
    ensures Reconcile(application, before, replies).after.charmModifiedVersion
         == replies.charm.response.modifiedVersion
  {
  }

  /** The step stages (and reports Maintenance) exactly when the stored
      charm URL is not the one the getter returned; otherwise it succeeds
      with the URL unchanged, after the getter call alone. */
  lemma AlreadyDownloadedShortCircuits(application: string, before: StateRecord, replies: Replies)
    requires replies.charm.GetterOk?
    ensures var s := Reconcile(application, before, replies);
      (before.charmURL == replies.charm.response.curl) <==> (s.calls == [GetCharm(application)])
    ensures var s := Reconcile(application, before, replies);
      before.charmURL == replies.charm.response.curl ==>
        s.result == NoError && s.after.charmURL == before.charmURL
  {
  }

  /** URLs are compared as references: a URL object that denotes the same
      text as the stored one, but is a different object, is staged again. */
  lemma EqualTextDifferentObjectRedeploys(application: string, before: StateRecord, replies: Replies)
    requires replies.charm.GetterOk? && replies.maintenanceStatus == NoError
    requires before.charmURL != null && replies.charm.response.curl != null
    requires before.charmURL.text == replies.charm.response.curl.text
    requires before.charmURL != replies.charm.response.curl
    ensures var resp := replies.charm.response;
      Reconcile(application, before, replies).calls[2] == StageCharm(CharmInfo(resp.curl, resp.sha256))
  {
  }

  /** On divergence the calls are made in a fixed order: the getter, the
      Maintenance status, Stage with the desired URL and digest, Deploy, and
      then either the state-file write or, on a conflict, the Error status.
      A failing step returns its error and nothing after it runs. */
  lemma DivergentStepOrder(application: string, before: StateRecord, replies: Replies)
    requires replies.charm.GetterOk? && before.charmURL != replies.charm.response.curl
    ensures var resp := replies.charm.response;
      var s := Reconcile(application, before, replies);
      var q := GetCharm(application);
      var m := SetStatus(Maintenance, DownloadingMessage, [UrlArg(resp.curl)]);
      var st := StageCharm(CharmInfo(resp.curl, resp.sha256));
      var recorded := before.(charmModifiedVersion := resp.modifiedVersion);
      && (replies.maintenanceStatus.Err? ==>
            s.calls == [q, m] && s.result == replies.maintenanceStatus && s.after == recorded)
      && (replies.maintenanceStatus == NoError && replies.stage.Err? ==>
            s.calls == [q, m, st] && s.result == replies.stage && s.after == recorded)
      && (replies.maintenanceStatus == NoError && replies.stage == NoError && replies.deploy.Err?
          && replies.deploy != Err(ErrConflict) ==>
            s.calls == [q, m, st, DeployCharm] && s.result == replies.deploy && s.after == recorded)
      && (replies.maintenanceStatus == NoError && replies.stage == NoError && replies.deploy == Err(ErrConflict) ==>
            s.calls == [q, m, st, DeployCharm, SetStatus(Error, UpgradeFailedMessage, [NilArg])])
      && (replies.maintenanceStatus == NoError && replies.stage == NoError && replies.deploy == NoError ==>
            s.calls == [q, m, st, DeployCharm, WriteState(s.after)])
  {
  }

  /** A deploy conflict sets the Error status "upgrade failed" and returns
      whatever setting that status returned: success when it succeeds. The
      charm URL is not committed and the state file is not written. */
  lemma ConflictReturnsStatusResult(application: string, before: StateRecord, replies: Replies)
    requires replies.charm.GetterOk? && before.charmURL != replies.charm.response.curl
    requires replies.maintenanceStatus == NoError && replies.stage == NoError
    requires replies.deploy == Err(ErrConflict)
    ensures var s := Reconcile(application, before, replies);
      && s.calls[|s.calls| - 1] == SetStatus(Error, UpgradeFailedMessage, [NilArg])
      && s.result == replies.errorStatus
      && s.after.charmURL == before.charmURL
      && forall c :: c in s.calls ==> !c.WriteState?
  {
  }

  /** A conflict whose status call succeeds is reported as success, yet the
      charm was not committed: the next step with the same getter reply
      stages the charm again. */
  lemma ConflictSuccessIsRetried(application: string, before: StateRecord, replies: Replies)
    requires replies.charm.GetterOk? && before.charmURL != replies.charm.response.curl
    requires replies.maintenanceStatus == NoError && replies.stage == NoError
    requires replies.deploy == Err(ErrConflict) && replies.errorStatus == NoError
    ensures var s := Reconcile(application, before, replies);
      s.result == NoError && Reconcile(application, s.after, replies).calls[2].StageCharm?
  {
  }

  /** The charm URL is committed, and the state file written, if and only
      if every step up to Deploy succeeded on a divergent charm. */
  lemma CommitOnlyAfterDeploy(application: string, before: StateRecord, replies: Replies)
    ensures var s := Reconcile(application, before, replies);
      var committed := replies.charm.GetterOk? && before.charmURL != replies.charm.response.curl
        && replies.maintenanceStatus == NoError && replies.stage == NoError
        && replies.deploy == NoError;
      && ((exists c :: c in s.calls && c.WriteState?) <==> committed)
      && (s.after.charmURL != before.charmURL ==> committed)
      && (committed ==> s.after.charmURL == replies.charm.response.curl
                        && s.calls[3] == DeployCharm)
  {
    var s := Reconcile(application, before, replies);
    if |s.calls| == 5 && s.calls[4].WriteState? {
      assert s.calls[4] in s.calls;
    }
  }

  /** After a successful Deploy, the state file receives the whole record,
      with the new URL and the new modified version, as the last call, and
      the step returns exactly what the write returned. */
  lemma WriteCarriesWholeState(application: string, before: StateRecord, replies: Replies)
    requires replies.charm.GetterOk? && before.charmURL != replies.charm.response.curl
    requires replies.maintenanceStatus == NoError && replies.stage == NoError
    requires replies.deploy == NoError
    ensures var resp := replies.charm.response;
      var s := Reconcile(application, before, replies);
      && s.after == StateRecord(resp.curl, resp.modifiedVersion)
      && |s.calls| == 5 && s.calls[4] == WriteState(s.after)
      && s.result == replies.write
  {
  }

  /** The descriptor handed to Stage yields, through its accessors, exactly
      the URL and digest the getter returned, without an error. */
  lemma StagedInfoCarriesDesired(application: string, before: StateRecord, replies: Replies)
    requires replies.charm.GetterOk? && before.charmURL != replies.charm.response.curl
    requires replies.maintenanceStatus == NoError
    ensures var s := Reconcile(application, before, replies);
      && s.calls[2].StageCharm?
      && s.calls[2].info.URL() == replies.charm.response.curl
      && s.calls[2].info.ArchiveSha256() == (replies.charm.response.sha256, NoError)
  {
  }

  /** A failed state-file write is returned, but the new charm URL stays in
      memory: the next step with the same getter reply takes the "already
      downloaded" path, so the write is not retried by it. */
  lemma FailedWriteNotRetried(application: string, before: StateRecord, replies: Replies)
    requires replies.charm.GetterOk? && before.charmURL != replies.charm.response.curl
    requires replies.maintenanceStatus == NoError && replies.stage == NoError
    requires replies.deploy == NoError && replies.write.Err?
    ensures var s := Reconcile(application, before, replies);
      var next := Reconcile(application, s.after, replies);
      && s.result == replies.write
      && s.after.charmURL == replies.charm.response.curl
      && next.calls == [GetCharm(application)] && next.result == NoError
  {
  }

  /** A successful step whose getter replied leaves either the getter's URL
      deployed, or reached Deploy, got a conflict, and set the Error status
      as its fifth and last call. */
  lemma SuccessMeansDeployedOrConflict(application: string, before: StateRecord, replies: Replies)
    requires replies.charm.GetterOk?
    requires Reconcile(application, before, replies).result == NoError
    ensures var s := Reconcile(application, before, replies);
      || s.after.charmURL == replies.charm.response.curl
      || (&& replies.deploy == Err(ErrConflict)
          && |s.calls| == 5 && s.calls[3] == DeployCharm
          && s.calls[4] == SetStatus(Error, UpgradeFailedMessage, [NilArg]))
  {
  }

  /** Idempotence: once the getter's URL is deployed, a second step with the
      same getter URL calls nothing but the getter and changes no URL. */
  lemma SecondStepIsIdempotent(application: string, before: StateRecord, first: Replies, second: Replies)
    requires first.charm.GetterOk? && second.charm.GetterOk?
    requires second.charm.response.curl == first.charm.response.curl
    requires Reconcile(application, before, first).after.charmURL == first.charm.response.curl
    ensures var s1 := Reconcile(application, before, first);
      var s2 := Reconcile(application, s1.after, second);
      s2.calls == [GetCharm(application)] && s2.result == NoError && s2.after.charmURL == s1.after.charmURL
  {
  }
}
