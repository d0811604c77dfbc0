/**
 * The cryptocurrency builder page. Same charges as the dApp page (3 credits
 * for a plan, 1 for the design, absolute writes from the page's snapshot),
 * but the page keeps no copy of the generated design: it is saved to the
 * user's projects and the page moves to its result step.
 */
module CryptoPage {
  import opened Wrappers
  import opened Ledger
  import opened SnapshotMeter

  const PlanCreditCost := 3
  const GenerationCreditCost := 1

  datatype Step = Initial | Plan | Generating | ResultShown

  datatype Run = Run(trace: seq<Effect>, step: Step, plan: string, status: Status)

  /**
   * What `onGeneratePlan` does. `generated` is what
   * `generateCryptocurrencyPlan` returns (`None` when it throws).
   */
  function GeneratePlan(users: Users, uid: Option<string>, userData: Option<Account>,
                        step: Step, plan: string,
                        debitReachable: bool, generated: Option<string>, restoreReachable: bool): Run
  {
    if uid.None? || userData.None? then Run([], step, plan, LoginRequired)
    else if userData.value.credits < PlanCreditCost then Run([], step, plan, InsufficientCredits)
    else
      var c := ChargeSnapshot(users, uid.value, userData.value.credits, PlanCreditCost, Generate,
                              debitReachable, generated.Some?, [], restoreReachable);
      match c.status
      case Completed => Run(c.trace, Plan, generated.value, Completed)
      case Failed => Run(c.trace, Initial, plan, Failed)
      case _ => Run(c.trace, Plan, plan, c.status)
  }

  /**
   * What `onApprovePlan` does. `designed` says whether
   * `generateCryptocurrencyDesign` returns, and `saved` whether the
   * background save of the design succeeds.
   */
  function ApprovePlan(users: Users, uid: Option<string>, userData: Option<Account>, step: Step, plan: string,
                       debitReachable: bool, designed: bool, saved: bool, restoreReachable: bool): Run
  {
    if uid.None? || userData.None? then Run([], step, plan, LoginRequired)
    else if userData.value.credits < GenerationCreditCost then Run([], step, plan, InsufficientCredits)
    else
      var c := ChargeSnapshot(users, uid.value, userData.value.credits, GenerationCreditCost, Generate,
                              debitReachable, designed, [Invoked(SaveProject, saved)], restoreReachable);
      match c.status
      case Completed => Run(c.trace, ResultShown, plan, Completed)
      case Failed => Run(c.trace, Plan, plan, Failed)
      case _ => Run(c.trace, Generating, plan, c.status)
  }

  class Page {
    var step: Step
    var plan: string

    constructor ()
      ensures step == Initial && plan == ""
    {
      step, plan := Initial, "";
    }

    method OnGeneratePlan(store: UserStore, uid: Option<string>, userData: Option<Account>,
                          debitReachable: bool, generated: Option<string>, restoreReachable: bool)
      returns (status: Status, trace: seq<Effect>)
      modifies this, store
      ensures var run := GeneratePlan(old(store.users), uid, userData, old(step), old(plan),
                                      debitReachable, generated, restoreReachable);
              trace == run.trace && step == run.step && plan == run.plan && status == run.status
      ensures store.users == Replay(old(store.users), trace)
    {
      trace := [];
      if uid.None? || userData.None? {
        status := LoginRequired;
        return;
      }
      if userData.value.credits < PlanCreditCost {
        status := InsufficientCredits;
        return;
      }
      step := Plan;
      status, trace := Charge(store, uid.value, userData.value.credits, PlanCreditCost, Generate,
                              debitReachable, generated.Some?, [], restoreReachable);
      if status == Completed {
        plan := generated.value;
      } else if status == Failed {
        step := Initial;
      }
    }

    method OnApprovePlan(store: UserStore, uid: Option<string>, userData: Option<Account>,
                         debitReachable: bool, designed: bool, saved: bool, restoreReachable: bool)
      returns (status: Status, trace: seq<Effect>)
      modifies this, store
      ensures var run := ApprovePlan(old(store.users), uid, userData, old(step), old(plan),
                                     debitReachable, designed, saved, restoreReachable);
              trace == run.trace && step == run.step && plan == run.plan && status == run.status
      ensures store.users == Replay(old(store.users), trace)
    {
      trace := [];
      if uid.None? || userData.None? {
        status := LoginRequired;
        return;
      }
      if userData.value.credits < GenerationCreditCost {
        status := InsufficientCredits;
        return;
      }
      step := Generating;
      status, trace := Charge(store, uid.value, userData.value.credits, GenerationCreditCost, Generate,
                              debitReachable, designed, [Invoked(SaveProject, saved)], restoreReachable);
      if status == Completed {
        step := ResultShown;
      } else if status == Failed {
        step := Plan;
      }
    }

    /** `handleEdit`: back to the form with no plan. */
    method HandleEdit()
      modifies this
      ensures step == Initial && plan == ""
    {
      step, plan := Initial, "";
    }
  }

  /**
   * A plan request writes something exactly when a user is signed in and the
   * snapshot holds at least 3 credits; otherwise the page is left as it was.
   */
  lemma GuardedPlanWritesNothing(users: Users, uid: Option<string>, userData: Option<Account>,
                                 step: Step, plan: string,
                                 debitReachable: bool, generated: Option<string>, restoreReachable: bool)
    ensures var run := GeneratePlan(users, uid, userData, step, plan,
                                    debitReachable, generated, restoreReachable);
            (run.trace == [] <==> uid.None? || userData.None?
                                  || userData.value.credits < PlanCreditCost)
            && (run.trace == [] ==> run.step == step && run.plan == plan)
  {
  }

  /**
   * With a snapshot that matches the store, a failed plan whose restore
   * lands is net zero and returns to the form.
   */
  lemma FailedPlanIsNetZero(users: Users, uid: string, step: Step, plan: string,
                            debitReachable: bool, generated: Option<string>)
    requires uid in users && users[uid].credits >= PlanCreditCost
    requires !debitReachable || generated.None?
    ensures var run := GeneratePlan(users, Some(uid), Some(users[uid]), step, plan,
                                    debitReachable, generated, true);
            Replay(users, run.trace) == users && run.step == Initial && run.plan == plan && run.status == Failed
  {
    FreshFailureIsNetZero(users, uid, PlanCreditCost, Generate, debitReachable, generated.Some?, []);
  }

  /**
   * With a snapshot that matches the store, a failed design whose restore
   * lands is net zero and goes back to the plan.
   */
  lemma FailedApprovalIsNetZero(users: Users, uid: string, step: Step, plan: string,
                                debitReachable: bool, designed: bool, saved: bool)
    requires uid in users && users[uid].credits >= GenerationCreditCost
    requires !debitReachable || !designed
    ensures var run := ApprovePlan(users, Some(uid), Some(users[uid]), step, plan,
                                   debitReachable, designed, saved, true);
            Replay(users, run.trace) == users && run.step == Plan && run.status == Failed
  {
    FreshFailureIsNetZero(users, uid, GenerationCreditCost, Generate, debitReachable, designed,
                          [Invoked(SaveProject, saved)]);
  }

  /**
   * A design charged from a stale snapshot sets the balance to the snapshot
   * minus 1, overwriting whatever the store held, and a failed save changes
   * nothing about it.
   */
  lemma StaleDesignSnapshotOverwrites(users: Users, uid: string, userData: Account, step: Step, plan: string,
                                      saved: bool)
    requires uid in users && userData.credits >= GenerationCreditCost
    ensures var run := ApprovePlan(users, Some(uid), Some(userData), step, plan, true, true, saved, true);
            var after := Replay(users, run.trace);
            run.status == Completed && run.step == ResultShown
            && after == users[uid := users[uid].(credits := userData.credits - GenerationCreditCost)]
  {
    CompletedSetsSnapshotMinusCost(users, uid, userData.credits, GenerationCreditCost, Generate,
                                   true, true, [Invoked(SaveProject, saved)], true);
  }

  /**
   * With a snapshot that matches a non-negative stored balance, a plan
   * request never drives the balance below zero, whatever fails.
   */
  lemma PlanKeepsCreditsNonNegative(users: Users, uid: string, step: Step, plan: string,
                                    debitReachable: bool, generated: Option<string>, restoreReachable: bool)
    requires uid in users && users[uid].credits >= 0
    ensures var run := GeneratePlan(users, Some(uid), Some(users[uid]), step, plan,
                                    debitReachable, generated, restoreReachable);
            var after := Replay(users, run.trace);
            uid in after && after[uid].credits >= 0
  {
    var snapshot := users[uid].credits;
    if snapshot >= PlanCreditCost {
      CompletedSetsSnapshotMinusCost(users, uid, snapshot, PlanCreditCost, Generate,
                                     debitReachable, generated.Some?, [], restoreReachable);
      FailedSetsSnapshot(users, uid, snapshot, PlanCreditCost, Generate,
                         debitReachable, generated.Some?, [], restoreReachable);
      RestoreThrewKeepsDebit(users, uid, snapshot, PlanCreditCost, Generate,
                             debitReachable, generated.Some?, [], restoreReachable);
      ChargeStatus(users, uid, snapshot, PlanCreditCost, Generate,
                   debitReachable, generated.Some?, [], restoreReachable);
    }
  }

  /**
   * A design request without a user or with a snapshot under 1 credit
   * writes nothing and leaves the page as it was.
   */
  lemma RejectedApprovalWritesNothing(users: Users, uid: Option<string>, userData: Option<Account>,
                                      step: Step, plan: string,
                                      debitReachable: bool, designed: bool, saved: bool, restoreReachable: bool)
    requires uid.None? || userData.None? || userData.value.credits < GenerationCreditCost
    ensures var run := ApprovePlan(users, uid, userData, step, plan, debitReachable, designed, saved, restoreReachable);
            run.trace == [] && run.step == step && run.plan == plan && run.status != Completed
  {
  }

  /**
   * With a snapshot that matches a non-negative stored balance, a design
   * request never drives the balance below zero, whatever fails.
   */
  lemma ApprovalKeepsCreditsNonNegative(users: Users, uid: string, step: Step, plan: string,
                                        debitReachable: bool, designed: bool, saved: bool,
                                        restoreReachable: bool)
    requires uid in users && users[uid].credits >= 0
    ensures var run := ApprovePlan(users, Some(uid), Some(users[uid]), step, plan,
                                   debitReachable, designed, saved, restoreReachable);
            var after := Replay(users, run.trace);
            uid in after && after[uid].credits >= 0
  {
    var snapshot := users[uid].credits;
    var after := [Invoked(SaveProject, saved)];
    if snapshot >= GenerationCreditCost {
      CompletedSetsSnapshotMinusCost(users, uid, snapshot, GenerationCreditCost, Generate,
                                     debitReachable, designed, after, restoreReachable);
      FailedSetsSnapshot(users, uid, snapshot, GenerationCreditCost, Generate,
                         debitReachable, designed, after, restoreReachable);
      RestoreThrewKeepsDebit(users, uid, snapshot, GenerationCreditCost, Generate,
                             debitReachable, designed, after, restoreReachable);
      ChargeStatus(users, uid, snapshot, GenerationCreditCost, Generate,
                   debitReachable, designed, after, restoreReachable);
    }
  }
}
