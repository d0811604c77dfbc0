/**
 * The smart-contract testing page. One analysis costs one free audit when the
 * account has any, otherwise 2 credits; the debit is written before the
 * analysis is requested and reversed by a relative increment when anything in
 * the `try` throws, including the debit write itself.
 */
module TestingPage {
  import opened Wrappers
  import opened Ledger

  const CreditCost := 2

  datatype Step = Initial | Analyzing | ResultShown

  /** Which counter pays for the analysis. */
  datatype Charge = FreeAudit | PaidCredits

  /** The balance check, made on the page's snapshot of the user document. */
  function ChooseCharge(a: Account): (c: Option<Charge>)
    ensures c == Some(FreeAudit) <==> a.freeAudits > 0
    ensures c == Some(PaidCredits) <==> a.freeAudits <= 0 && a.credits >= CreditCost
    ensures c == None <==> a.freeAudits <= 0 && a.credits < CreditCost
  {
    if a.freeAudits > 0 then Some(FreeAudit)
    else if a.credits >= CreditCost then Some(PaidCredits)
    else None
  }

  function Debit(uid: string, c: Charge): Write
  {
    match c
    case FreeAudit => Increment(uid, FreeAudits, -1)
    case PaidCredits => Increment(uid, Credits, -CreditCost)
  }

  function Refund(uid: string, c: Charge): Write
  {
    match c
    case FreeAudit => Increment(uid, FreeAudits, 1)
    case PaidCredits => Increment(uid, Credits, CreditCost)
  }

  datatype Run = Run(trace: seq<Effect>, step: Step, analysisResult: Option<string>, status: Status)

  /**
   * What `onAnalyzeContract` does. `uid` is the signed-in user, `userData` the
   * page's snapshot of that user's document; `analysis` is what
   * `testSmartContract` returns (`None` when it throws); the two flags say
   * whether the store is reachable for the debit and for the refund.
   */
  function Analyze(users: Users, uid: Option<string>, userData: Option<Account>,
                   step: Step, analysisResult: Option<string>,
                   debitReachable: bool, analysis: Option<string>, refundReachable: bool): Run
  {
    if uid.None? || userData.None? then Run([], step, analysisResult, LoginRequired)
    else
      match ChooseCharge(userData.value)
      case None => Run([], step, analysisResult, InsufficientCredits)
      case Some(c) =>
        var debit := Debit(uid.value, c);
        var debited := Accepts(users, debit, debitReachable);
        if debited && analysis.Some? then
          Run([Wrote(debit, true), Invoked(Generate, true)], ResultShown, analysis, Completed)
        else
          var tried := [Wrote(debit, debited)] + (if debited then [Invoked(Generate, false)] else []);
          var refund := Refund(uid.value, c);
          var refunded := Accepts(users, refund, refundReachable);
          if refunded then Run(tried + [Wrote(refund, true)], Initial, None, Failed)
          else Run(tried + [Wrote(refund, false)], Analyzing, None, RefundThrew)
  }

  /** The page's state: the step it shows and the last analysis result. */
  class Page {
    var step: Step
    var analysisResult: Option<string>

    constructor ()
      ensures step == Initial && analysisResult == None
    {
      step := Initial;
      analysisResult := None;
    }

    method OnAnalyzeContract(store: UserStore, uid: Option<string>, userData: Option<Account>,
                             debitReachable: bool, analysis: Option<string>, refundReachable: bool)
      returns (status: Status, trace: seq<Effect>)
      modifies this, store
      ensures var run := Analyze(old(store.users), uid, userData, old(step), old(analysisResult),
                                 debitReachable, analysis, refundReachable);
              trace == run.trace && step == run.step && analysisResult == run.analysisResult && status == run.status
      ensures store.users == Replay(old(store.users), trace)
    {
      trace := [];
      if uid.None? || userData.None? {
        status := LoginRequired;
        return;
      }
      var charge := ChooseCharge(userData.value);
      if charge.None? {
        status := InsufficientCredits;
        return;
      }
      step := Analyzing;
      analysisResult := None;
      var debited, refunded;
      debited, trace := store.Record(old(store.users), trace, Debit(uid.value, charge.value), debitReachable);
      if debited {
        trace := trace + [Invoked(Generate, analysis.Some?)];
        assert Replay(old(store.users), trace) == store.users by {
          ReplaySnoc(old(store.users), trace[..1], Invoked(Generate, analysis.Some?));
          assert trace[..1] + [Invoked(Generate, analysis.Some?)] == trace;
        }
        if analysis.Some? {
          analysisResult := analysis;
          step := ResultShown;
          status := Completed;
          return;
        }
      }
      // the catch block
      refunded, trace := store.Record(old(store.users), trace, Refund(uid.value, charge.value), refundReachable);
      if refunded {
        step := Initial;
        status := Failed;
      } else {
        status := RefundThrew;
      }
    }
  }

  /** A rejected action (no user, no snapshot, or too low a balance) writes nothing and calls nothing. */
  lemma RejectedAnalysisWritesNothing(users: Users, uid: Option<string>, userData: Option<Account>,
                                      step: Step, analysisResult: Option<string>,
                                      debitReachable: bool, analysis: Option<string>, refundReachable: bool)
    requires uid.None? || userData.None? || (userData.value.freeAudits <= 0 && userData.value.credits < CreditCost)
    ensures var run := Analyze(users, uid, userData, step, analysisResult, debitReachable, analysis, refundReachable);
            run.trace == [] && Replay(users, run.trace) == users
            && run.step == step && run.analysisResult == analysisResult
            && run.status in {LoginRequired, InsufficientCredits}
  {
  }

  /** The analysis is requested only right after a debit the store accepted. */
  lemma AnalysisFollowsDebit(users: Users, uid: Option<string>, userData: Option<Account>,
                             step: Step, analysisResult: Option<string>,
                             debitReachable: bool, analysis: Option<string>, refundReachable: bool, i: int)
    requires var run := Analyze(users, uid, userData, step, analysisResult, debitReachable, analysis, refundReachable);
             0 <= i < |run.trace| && run.trace[i].Invoked?
    ensures var run := Analyze(users, uid, userData, step, analysisResult, debitReachable, analysis, refundReachable);
            i == 1 && run.trace[0] == Wrote(Debit(uid.value, ChooseCharge(userData.value).value), true)
  {
  }

  /** A free audit is preferred: with any free audit left, one is consumed and credits are untouched. */
  lemma FreeAuditPreferred(users: Users, uid: string, userData: Account,
                           step: Step, analysisResult: Option<string>, result: string)
    requires uid in users && userData.freeAudits > 0
    ensures var run := Analyze(users, Some(uid), Some(userData), step, analysisResult, true, Some(result), true);
            var after := Replay(users, run.trace);
            run.status == Completed && run.step == ResultShown && run.analysisResult == Some(result)
            && uid in after && after[uid] == users[uid].(freeAudits := users[uid].freeAudits - 1)
  {
    var run := Analyze(users, Some(uid), Some(userData), step, analysisResult, true, Some(result), true);
    ReplayTwo(users, run.trace[0], run.trace[1]);
  }

  /** With no free audit left, exactly 2 credits are taken and free audits are untouched. */
  lemma CreditsChargedWithoutFreeAudit(users: Users, uid: string, userData: Account,
                                       step: Step, analysisResult: Option<string>, result: string)
    requires uid in users && userData.freeAudits <= 0 && userData.credits >= CreditCost
    ensures var run := Analyze(users, Some(uid), Some(userData), step, analysisResult, true, Some(result), true);
            var after := Replay(users, run.trace);
            run.status == Completed
            && uid in after && after[uid] == users[uid].(credits := users[uid].credits - CreditCost)
  {
    var run := Analyze(users, Some(uid), Some(userData), step, analysisResult, true, Some(result), true);
    ReplayTwo(users, run.trace[0], run.trace[1]);
  }

  /** A failed analysis after an accepted debit, once refunded, leaves the collection as it was. */
  lemma FailedAnalysisIsNetZero(users: Users, uid: string, userData: Account,
                                step: Step, analysisResult: Option<string>)
    requires uid in users && ChooseCharge(userData).Some?
    ensures var run := Analyze(users, Some(uid), Some(userData), step, analysisResult, true, None, true);
            Replay(users, run.trace) == users && run.step == Initial && run.status == Failed
  {
    var c := ChooseCharge(userData).value;
    var run := Analyze(users, Some(uid), Some(userData), step, analysisResult, true, None, true);
    var amount := if c == FreeAudit then 1 else CreditCost;
    var counter := if c == FreeAudit then FreeAudits else Credits;
    var pair := [Wrote(Increment(uid, counter, -amount), true), Wrote(Increment(uid, counter, amount), true)];
    assert run.trace == [pair[0]] + [Invoked(Generate, false)] + [pair[1]];
    ReplayAppend(users, [pair[0]], [Invoked(Generate, false)] + [pair[1]]);
    ReplayAppend(users, [pair[0]], [pair[1]]);
    assert [pair[0]] + [pair[1]] == pair;
    IncrementUndone(users, uid, counter, amount);
  }

  /**
   * The debit sits inside the `try`: when the debit write throws, the analysis
   * is never requested but the compensating increment still runs, so the
   * paying counter ends one refund above where it started.
   */
  lemma FailedDebitStillRefunded(users: Users, uid: string, userData: Account,
                                 step: Step, analysisResult: Option<string>, analysis: Option<string>)
    requires uid in users && ChooseCharge(userData).Some?
    ensures var run := Analyze(users, Some(uid), Some(userData), step, analysisResult, false, analysis, true);
            var c := ChooseCharge(userData).value;
            (forall i :: 0 <= i < |run.trace| ==> !run.trace[i].Invoked?)
            && Replay(users, run.trace) == Apply(users, Refund(uid, c))
            && run.status == Failed
  {
    var c := ChooseCharge(userData).value;
    var run := Analyze(users, Some(uid), Some(userData), step, analysisResult, false, analysis, true);
    assert run.trace == [Wrote(Debit(uid, c), false), Wrote(Refund(uid, c), true)];
    ReplayTwo(users, run.trace[0], run.trace[1]);
  }

  /** Both counters of `uid` are present and non-negative. */
  predicate CountersNonNegative(users: Users, uid: string)
  {
    uid in users && users[uid].credits >= 0 && users[uid].freeAudits >= 0
  }

  /** The debit the balance check allows cannot take a counter below zero. */
  lemma DebitKeepsNonNegative(users: Users, uid: string, c: Charge, ok: bool)
    requires CountersNonNegative(users, uid) && ChooseCharge(users[uid]) == Some(c)
    ensures CountersNonNegative(ApplyEffect(users, Wrote(Debit(uid, c), ok)), uid)
  {
  }

  /** A refund only raises a counter. */
  lemma RefundKeepsNonNegative(users: Users, uid: string, c: Charge, ok: bool)
    requires CountersNonNegative(users, uid)
    ensures CountersNonNegative(ApplyEffect(users, Wrote(Refund(uid, c), ok)), uid)
  {
  }

  /**
   * Counters stay non-negative when the snapshot is the stored document:
   * whatever the store and the analysis do, neither counter drops below zero.
   */
  lemma AnalysisKeepsCountersNonNegative(users: Users, uid: string,
                                         step: Step, analysisResult: Option<string>,
                                         debitReachable: bool, analysis: Option<string>, refundReachable: bool)
    requires uid in users && users[uid].credits >= 0 && users[uid].freeAudits >= 0
    ensures var run := Analyze(users, Some(uid), Some(users[uid]), step, analysisResult,
                               debitReachable, analysis, refundReachable);
            var after := Replay(users, run.trace);
            uid in after && after[uid].credits >= 0 && after[uid].freeAudits >= 0
  {
    var run := Analyze(users, Some(uid), Some(users[uid]), step, analysisResult,
                       debitReachable, analysis, refundReachable);
    var charge := ChooseCharge(users[uid]);
    if charge.None? {
      assert run.trace == [];
      return;
    }
    var c := charge.value;
    var debit, refund := Debit(uid, c), Refund(uid, c);
    var debited := Accepts(users, debit, debitReachable);
    var refunded := Accepts(users, refund, refundReachable);
    var mid := ApplyEffect(users, Wrote(debit, debited));
    DebitKeepsNonNegative(users, uid, c, debited);
    if debited && analysis.Some? {
      assert run.trace == [Wrote(debit, true), Invoked(Generate, true)];
      ReplayTwo(users, Wrote(debit, true), Invoked(Generate, true));
    } else if debited {
      assert run.trace == [Wrote(debit, true), Invoked(Generate, false), Wrote(refund, refunded)];
      ReplayThree(users, Wrote(debit, true), Invoked(Generate, false), Wrote(refund, refunded));
      RefundKeepsNonNegative(mid, uid, c, refunded);
    } else {
      assert run.trace == [Wrote(debit, false), Wrote(refund, refunded)];
      ReplayTwo(users, Wrote(debit, false), Wrote(refund, refunded));
      RefundKeepsNonNegative(mid, uid, c, refunded);
    }
  }
}
