/** The sample controller's status callback: the Ready condition while planning, the outputs afterwards, the
    observed generation always, and one version-checked write. */
module Status {
  import opened Options
  import opened Store
  import opened Events

  datatype Condition = Ready | PendingChanges | Unset

  datatype AccountStatus = AccountStatus(observedGeneration: nat, ready: Condition, gsa: string, ksa: string)

  datatype Account = Account(rv: nat, generation: nat, google: bool, status: AccountStatus)

  /** The account on the server. */
  class StatusServer {
    var stored: Account

    constructor (stored: Account)
      ensures this.stored == stored
    {
      this.stored := stored;
    }

    /** Status().Update: only the status is taken, and only from the current version. */
    method Update(sent: Account, fate: Reply) returns (answer: Option<Account>)
      modifies this
      ensures var lands := fate != Refused && old(stored).rv == sent.rv;
              && stored == (if lands then old(stored).(rv := old(stored).rv + 1, status := sent.status)
                            else old(stored))
              && answer == (if lands && fate.Acked? then Some(stored) else None)
    {
      answer := None;
      if fate != Refused && stored.rv == sent.rv {
        stored := stored.(rv := stored.rv + 1, status := sent.status);
        if fate.Acked? { answer := Some(stored); }
      }
    }
  }

  /** The local object the callback edits in place. */
  class AccountObject {
    var account: Account

    constructor (account: Account)
      ensures this.account == account
    {
      this.account := account;
    }
  }

  /** UpdateStatus (iamaccount_controller.go:131-171). While planning it sets the Ready condition and leaves
      the outputs; afterwards it replaces the outputs and leaves the condition. The local status is edited even
      when the write fails; the server changes only if it held the local version, and then the stored
      observed generation is the generation of the copy that was current. */
  method UpdateStatus(server: StatusServer, obj: AccountObject, chg: Changes, fate: Reply) returns (ok: bool)
    modifies server, obj
    ensures var before, after := old(obj.account), obj.account;
            && after.status.observedGeneration == before.generation
            && (chg.planning ==>
                  && after.status.ready == (if chg.hasResourceChanges then PendingChanges else Ready)
                  && after.status.gsa == before.status.gsa && after.status.ksa == before.status.ksa)
            && (!chg.planning ==>
                  && after.status.ready == before.status.ready
                  && (forall text :: "ksa" in chg.outputs && chg.outputs["ksa"] == Text(text) ==>
                        after.status.ksa == text)
                  && ("ksa" !in chg.outputs || chg.outputs["ksa"] == NotText ==> after.status.ksa == "")
                  && (forall text :: before.google && "gsa" in chg.outputs && chg.outputs["gsa"] == Text(text) ==>
                        after.status.gsa == text)
                  && (!before.google || "gsa" !in chg.outputs || chg.outputs["gsa"] == NotText ==>
                        after.status.gsa == ""))
    ensures var lands := fate != Refused && old(server.stored).rv == old(obj.account).rv;
            && (ok <==> lands && fate.Acked?)
            && (lands ==> server.stored ==
                          old(server.stored).(rv := old(server.stored).rv + 1, status := obj.account.status))
            && (!lands ==> server.stored == old(server.stored))
    ensures ok ==> obj.account == server.stored
    ensures !ok ==> obj.account == old(obj.account).(status := obj.account.status)
  {
    var status := obj.account.status;
    if chg.planning {
      if chg.hasResourceChanges {
        status := status.(ready := PendingChanges);
      } else {
        status := status.(ready := Ready);
      }
    } else {
      status := status.(ksa := "", gsa := "");
      if obj.account.google {
        if "gsa" in chg.outputs && chg.outputs["gsa"].Text? { status := status.(gsa := chg.outputs["gsa"].text); }
      }
      if "ksa" in chg.outputs && chg.outputs["ksa"].Text? { status := status.(ksa := chg.outputs["ksa"].text); }
    }
    status := status.(observedGeneration := obj.account.generation);
    obj.account := obj.account.(status := status);
    var answer := server.Update(obj.account, fate);
    if answer.None? { return false; }
    obj.account := answer.value;
    return true;
  }

  /** The preview's callback over the events drained by the time the preview returned: the Ready condition
      reflects the whole preview exactly when the drain had caught up or the missed event does not flip the
      summary. */
  method PreviewStatus(server: StatusServer, obj: AccountObject, events: seq<Event>, handled: nat, fate: Reply)
    returns (ok: bool)
    requires handled == |events| || handled + 1 == |events|
    modifies server, obj
    ensures var whole := Fold(Changes(true, false, map[]), events).hasResourceChanges;
            var flips := handled < |events| && events[handled].Summary? &&
                         events[handled].hasChanges !=
                           (var k := LastSummary(events[..handled]); k >= 0 && events[k].hasChanges);
            obj.account.status.ready == (if whole then PendingChanges else Ready) <==> !flips
  {
    var chg := new StackChanges(true);
    Drain(chg, events[..handled]);
    ok := UpdateStatus(server, obj, chg.View(), fate);
    if handled < |events| {
      assert events[..|events| - 1] == events[..handled];
      LateSummaryMatters(Changes(true, false, map[]), events);
    } else {
      assert events[..handled] == events;
    }
  }
}
