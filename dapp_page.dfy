/**
 * The dApp builder page. A plan costs 3 credits and the dApp itself 1; both
 * are charged by absolute writes from the page's snapshot of the user
 * document (see `SnapshotMeter`). A generated dApp is saved to the user's
 * projects by a non-blocking write whose failure never reaches the page.
 */
module DappPage {
  import opened Wrappers
  import opened Ledger
  import opened SnapshotMeter
  import opened JsText

  const PlanCreditCost := 3
  const GenerationCreditCost := 1

  datatype Step = Initial | Plan | Generating | ResultShown

  datatype Run = Run(trace: seq<Effect>, step: Step, plan: string, result: Option<string>, status: Status)

  /**
   * What `handleGeneratePlan` does. `generated` is what `generateDAppPlan`
   * returns (`None` when it throws); the flags say whether the store is
   * reachable for the debit and for the restore.
   */
  function GeneratePlan(users: Users, prompt: string, uid: Option<string>, userData: Option<Account>,
                        step: Step, plan: string, result: Option<string>,
                        debitReachable: bool, generated: Option<string>, restoreReachable: bool): Run
  {
    if Blank(prompt) || step != Initial then Run([], step, plan, result, Ignored)
    else if uid.None? || userData.None? then Run([], step, plan, result, LoginRequired)
    else if userData.value.credits < PlanCreditCost then Run([], step, plan, result, InsufficientCredits)
    else
      var c := ChargeSnapshot(users, uid.value, userData.value.credits, PlanCreditCost, Generate,
                              debitReachable, generated.Some?, [], restoreReachable);
      match c.status
      case Completed => Run(c.trace, Plan, generated.value, None, Completed)
      case Failed => Run(c.trace, Initial, plan, None, Failed)
      case _ => Run(c.trace, Plan, plan, None, c.status)
  }

  /**
   * What `handleApprovePlan` does. `generated` is the code `generateDApp`
   * returns (`None` when it throws) and `saved` whether the background save
   * of the project succeeds.
   */
  function ApprovePlan(users: Users, uid: Option<string>, userData: Option<Account>,
                       step: Step, plan: string, result: Option<string>,
                       debitReachable: bool, generated: Option<string>, saved: bool, restoreReachable: bool): Run
  {
    if uid.None? || userData.None? then Run([], step, plan, result, LoginRequired)
    else if userData.value.credits < GenerationCreditCost then Run([], step, plan, result, InsufficientCredits)
    else
      var c := ChargeSnapshot(users, uid.value, userData.value.credits, GenerationCreditCost, Generate,
                              debitReachable, generated.Some?, [Invoked(SaveProject, saved)], restoreReachable);
      match c.status
      case Completed => Run(c.trace, ResultShown, plan, generated, Completed)
      case Failed => Run(c.trace, Plan, plan, result, Failed)
      case _ => Run(c.trace, Generating, plan, result, c.status)
  }

  class Page {
    var step: Step
    var plan: string
    var result: Option<string>

    constructor ()
      ensures step == Initial && plan == "" && result == None
    {
      step, plan, result := Initial, "", None;
    }

    method HandleGeneratePlan(store: UserStore, prompt: string, uid: Option<string>, userData: Option<Account>,
                              debitReachable: bool, generated: Option<string>, restoreReachable: bool)
      returns (status: Status, trace: seq<Effect>)
      modifies this, store
      ensures var run := GeneratePlan(old(store.users), prompt, uid, userData, old(step), old(plan), old(result),
                                      debitReachable, generated, restoreReachable);
              trace == run.trace && step == run.step && plan == run.plan && result == run.result
              && status == run.status
      ensures store.users == Replay(old(store.users), trace)
    {
      trace := [];
      TrimEmptyIffBlank(prompt);
      if Trim(prompt) == "" || step != Initial {
        status := Ignored;
        return;
      }
      if uid.None? || userData.None? {
        status := LoginRequired;
        return;
      }
      if userData.value.credits < PlanCreditCost {
        status := InsufficientCredits;
        return;
      }
      step := Plan;
      result := None;
      status, trace := Charge(store, uid.value, userData.value.credits, PlanCreditCost, Generate,
                              debitReachable, generated.Some?, [], restoreReachable);
      if status == Completed {
        plan := generated.value;
      } else if status == Failed {
        step := Initial;
      }
    }

    method HandleApprovePlan(store: UserStore, uid: Option<string>, userData: Option<Account>,
                             debitReachable: bool, generated: Option<string>, saved: bool, restoreReachable: bool)
      returns (status: Status, trace: seq<Effect>)
      modifies this, store
      ensures var run := ApprovePlan(old(store.users), uid, userData, old(step), old(plan), old(result),
                                     debitReachable, generated, saved, restoreReachable);
              trace == run.trace && step == run.step && plan == run.plan && result == run.result
              && status == run.status
      ensures store.users == Replay(old(store.users), trace)
    {
      trace := [];
      if uid.None? || userData.None? {
        status := LoginRequired;
        return;
      }
      if userData.value.credits < GenerationCreditCost {
        status := InsufficientCredits;
        return;
      }
      step := Generating;
      status, trace := Charge(store, uid.value, userData.value.credits, GenerationCreditCost, Generate,
                              debitReachable, generated.Some?, [Invoked(SaveProject, saved)], restoreReachable);
      if status == Completed {
        result := generated;
        step := ResultShown;
      } else if status == Failed {
        step := Plan;
      }
    }

    /** `handleEdit`: back to an empty form. */
    method HandleEdit()
      modifies this
      ensures step == Initial && plan == "" && result == None
    {
      step, plan, result := Initial, "", None;
    }
  }

  /**
   * A plan request is ignored while the trimmed prompt is empty or a plan is
   * already under way, and rejected without a user or with under 3 credits;
   * none of these writes anything or changes the page.
   */
  lemma GuardedPlanWritesNothing(users: Users, prompt: string, uid: Option<string>, userData: Option<Account>,
                                 step: Step, plan: string, result: Option<string>,
                                 debitReachable: bool, generated: Option<string>, restoreReachable: bool)
    ensures var run := GeneratePlan(users, prompt, uid, userData, step, plan, result,
                                    debitReachable, generated, restoreReachable);
            (run.trace == [] <==> Blank(prompt) || step != Initial || uid.None? || userData.None?
                                  || userData.value.credits < PlanCreditCost)
            && (run.trace == [] ==> run.step == step && run.plan == plan && run.result == result)
  {
  }

  /**
   * With a snapshot that matches the store, a failed plan whose restore
   * lands is net zero and returns to the form, even when the debit itself
   * was the write that threw.
   */
  lemma FailedPlanIsNetZero(users: Users, prompt: string, uid: string, plan: string, result: Option<string>,
                            debitReachable: bool, generated: Option<string>)
    requires uid in users && !Blank(prompt) && users[uid].credits >= PlanCreditCost
    requires !debitReachable || generated.None?
    ensures var run := GeneratePlan(users, prompt, Some(uid), Some(users[uid]), Initial, plan, result,
                                    debitReachable, generated, true);
            Replay(users, run.trace) == users && run.step == Initial && run.plan == plan && run.status == Failed
  {
    FreshFailureIsNetZero(users, uid, PlanCreditCost, Generate, debitReachable, generated.Some?, []);
  }

  /**
   * A plan charged from a stale snapshot sets the balance to the snapshot
   * minus 3, overwriting whatever the store held.
   */
  lemma StalePlanSnapshotOverwrites(users: Users, prompt: string, uid: string, userData: Account,
                                    plan: string, result: Option<string>, generated: string)
    requires uid in users && !Blank(prompt) && userData.credits >= PlanCreditCost
    ensures var run := GeneratePlan(users, prompt, Some(uid), Some(userData), Initial, plan, result,
                                    true, Some(generated), true);
            var after := Replay(users, run.trace);
            run.status == Completed && run.plan == generated
            && after == users[uid := users[uid].(credits := userData.credits - PlanCreditCost)]
  {
    CompletedSetsSnapshotMinusCost(users, uid, userData.credits, PlanCreditCost, Generate,
                                   true, true, [], true);
  }

  /**
   * The project save runs after the dApp is shown and swallows its own
   * failure: the balance, the page and the status do not depend on it.
   */
  lemma SaveFailureIsolated(users: Users, uid: Option<string>, userData: Option<Account>,
                            step: Step, plan: string, result: Option<string>,
                            debitReachable: bool, generated: Option<string>, restoreReachable: bool)
    requires uid.Some? ==> uid.value in users
    ensures var ok := ApprovePlan(users, uid, userData, step, plan, result,
                                  debitReachable, generated, true, restoreReachable);
            var failed := ApprovePlan(users, uid, userData, step, plan, result,
                                      debitReachable, generated, false, restoreReachable);
            Replay(users, ok.trace) == Replay(users, failed.trace)
            && ok.step == failed.step && ok.result == failed.result && ok.status == failed.status
  {
    if uid.Some? && userData.Some? {
      AfterCallsIsolated(users, uid.value, userData.value.credits, GenerationCreditCost, Generate,
                         debitReachable, generated.Some?, [Invoked(SaveProject, true)],
                         [Invoked(SaveProject, false)], restoreReachable);
    }
  }

  /**
   * With a snapshot that matches the store, a failed generation whose
   * restore lands is net zero and goes back to the plan, keeping the result
   * shown before.
   */
  lemma FailedApprovalIsNetZero(users: Users, uid: string, step: Step, plan: string, result: Option<string>,
                                debitReachable: bool, generated: Option<string>, saved: bool)
    requires uid in users && users[uid].credits >= GenerationCreditCost
    requires !debitReachable || generated.None?
    ensures var run := ApprovePlan(users, Some(uid), Some(users[uid]), step, plan, result,
                                   debitReachable, generated, saved, true);
            Replay(users, run.trace) == users && run.step == Plan && run.result == result && run.status == Failed
  {
    FreshFailureIsNetZero(users, uid, GenerationCreditCost, Generate, debitReachable, generated.Some?,
                          [Invoked(SaveProject, saved)]);
  }

  /**
   * With a snapshot that matches a non-negative stored balance, generating
   * the dApp never drives the balance below zero, whatever fails.
   */
  lemma ApprovalKeepsCreditsNonNegative(users: Users, uid: string, step: Step, plan: string, result: Option<string>,
                                        debitReachable: bool, generated: Option<string>, saved: bool,
                                        restoreReachable: bool)
    requires uid in users && users[uid].credits >= 0
    ensures var run := ApprovePlan(users, Some(uid), Some(users[uid]), step, plan, result,
                                   debitReachable, generated, saved, restoreReachable);
            var after := Replay(users, run.trace);
            uid in after && after[uid].credits >= 0
  {
    var snapshot := users[uid].credits;
    var after := [Invoked(SaveProject, saved)];
    if snapshot >= GenerationCreditCost {
      CompletedSetsSnapshotMinusCost(users, uid, snapshot, GenerationCreditCost, Generate,
                                     debitReachable, generated.Some?, after, restoreReachable);
      FailedSetsSnapshot(users, uid, snapshot, GenerationCreditCost, Generate,
                         debitReachable, generated.Some?, after, restoreReachable);
      RestoreThrewKeepsDebit(users, uid, snapshot, GenerationCreditCost, Generate,
                             debitReachable, generated.Some?, after, restoreReachable);
      ChargeStatus(users, uid, snapshot, GenerationCreditCost, Generate,
                   debitReachable, generated.Some?, after, restoreReachable);
    }
  }

  /**
   * A dApp request without a user or with a snapshot under 1 credit writes
   * nothing and leaves the page as it was.
   */
  lemma RejectedApprovalWritesNothing(users: Users, uid: Option<string>, userData: Option<Account>,
                                      step: Step, plan: string, result: Option<string>,
                                      debitReachable: bool, generated: Option<string>, saved: bool,
                                      restoreReachable: bool)
    requires uid.None? || userData.None? || userData.value.credits < GenerationCreditCost
    ensures var run := ApprovePlan(users, uid, userData, step, plan, result,
                                   debitReachable, generated, saved, restoreReachable);
            run.trace == [] && run.step == step && run.plan == plan && run.result == result
            && run.status != Completed
  {
  }

  /**
   * With a snapshot that matches a non-negative stored balance, a plan
   * request never drives the balance below zero, whatever fails.
   */
  lemma PlanKeepsCreditsNonNegative(users: Users, prompt: string, uid: string, step: Step, plan: string,
                                    result: Option<string>, debitReachable: bool, generated: Option<string>,
                                    restoreReachable: bool)
    requires uid in users && users[uid].credits >= 0
    ensures var run := GeneratePlan(users, prompt, Some(uid), Some(users[uid]), step, plan, result,
                                    debitReachable, generated, restoreReachable);
            var after := Replay(users, run.trace);
            uid in after && after[uid].credits >= 0
  {
    var snapshot := users[uid].credits;
    if !Blank(prompt) && step == Initial && snapshot >= PlanCreditCost {
      CompletedSetsSnapshotMinusCost(users, uid, snapshot, PlanCreditCost, Generate,
                                     debitReachable, generated.Some?, [], restoreReachable);
      FailedSetsSnapshot(users, uid, snapshot, PlanCreditCost, Generate,
                         debitReachable, generated.Some?, [], restoreReachable);
      RestoreThrewKeepsDebit(users, uid, snapshot, PlanCreditCost, Generate,
                             debitReachable, generated.Some?, [], restoreReachable);
      ChargeStatus(users, uid, snapshot, PlanCreditCost, Generate,
                   debitReachable, generated.Some?, [], restoreReachable);
    }
  }
}
