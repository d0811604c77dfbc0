/**
 * The NFT builder page. A plan costs 3 credits; generating the collection
 * costs one credit per requested item. Both debits are relative increments
 * written inside the `try`, and anything that throws in the `try` (the debit,
 * the generation, the image upload) is compensated by the opposite increment.
 */
module NftPage {
  import opened Wrappers
  import opened Ledger
  import opened NftCollectionFlow

  const PlanCreditCost := 3

  /** The form bounds the number of items to 1..10. */
  predicate ValidNumberOfNfts(n: int)
  {
    1 <= n <= 10
  }

  /** `generationCreditCost`: `1 + (n - 1)` for a positive count, nothing otherwise. */
  function GenerationCreditCost(numberOfNfts: int): (cost: int)
    ensures numberOfNfts <= 0 ==> cost == 0
    ensures numberOfNfts >= 1 ==> cost == numberOfNfts
    ensures ValidNumberOfNfts(numberOfNfts) ==> 1 <= cost <= 10
  {
    if numberOfNfts <= 0 then 0 else 1 + (numberOfNfts - 1)
  }

  datatype Step = Initial | Plan | Generating | ResultShown

  datatype PlanRun = PlanRun(trace: seq<Effect>, step: Step, plan: string, status: Status)

  /**
   * What `onGeneratePlan` does; `generated` is what `generateNftPlan` returns
   * (`None` when it throws).
   */
  function GeneratePlan(users: Users, uid: Option<string>, userData: Option<Account>,
                        step: Step, plan: string,
                        debitReachable: bool, generated: Option<string>, refundReachable: bool): PlanRun
  {
    if uid.None? || userData.None? then PlanRun([], step, plan, LoginRequired)
    else if userData.value.credits < PlanCreditCost then PlanRun([], step, plan, InsufficientCredits)
    else
      var debit := Increment(uid.value, Credits, -PlanCreditCost);
      var debited := Accepts(users, debit, debitReachable);
      if debited && generated.Some? then
        PlanRun([Wrote(debit, true), Invoked(Generate, true)], Plan, generated.value, Completed)
      else
        var tried := [Wrote(debit, debited)] + (if debited then [Invoked(Generate, false)] else []);
        var refund := Increment(uid.value, Credits, PlanCreditCost);
        if Accepts(users, refund, refundReachable) then PlanRun(tried + [Wrote(refund, true)], Initial, plan, Failed)
        else PlanRun(tried + [Wrote(refund, false)], Plan, plan, RefundThrew)
  }

  datatype ApproveRun = ApproveRun(trace: seq<Effect>, step: Step, result: Option<seq<Nft>>, status: Status)

  /**
   * `Promise.all` over the uploads of a collection's images: `upload(i)` is
   * the download URL `uploadImageAndGetURL` gives item `i`, or `None` when
   * that upload throws.
   */
  function UploadAll(nfts: seq<Nft>, upload: nat -> Option<string>): Option<seq<Nft>>
    decreases |nfts|
  {
    if nfts == [] then Some([])
    else
      var last := |nfts| - 1;
      var front := UploadAll(nfts[..last], upload);
      if front.None? || upload(last).None? then None
      else Some(front.value + [nfts[last].(image := upload(last).value)])
  }

  /**
   * The uploads succeed exactly when every item's upload does (so an empty
   * collection has nothing that can fail), and then each item keeps
   * everything but its image, which becomes its storage URL.
   */
  lemma {:induction false} UploadAllReplacesImages(nfts: seq<Nft>, upload: nat -> Option<string>)
    ensures UploadAll(nfts, upload).Some? <==> forall i :: 0 <= i < |nfts| ==> upload(i).Some?
    ensures var r := UploadAll(nfts, upload);
            r.Some? ==> |r.value| == |nfts|
                        && forall i :: 0 <= i < |nfts| ==> r.value[i] == nfts[i].(image := upload(i).value)
    decreases |nfts|
  {
    if nfts != [] {
      var last := |nfts| - 1;
      var front := nfts[..last];
      UploadAllReplacesImages(front, upload);
      var r := UploadAll(nfts, upload);
      if r.Some? {
        var done := UploadAll(front, upload).value;
        assert r.value == done + [nfts[last].(image := upload(last).value)];
        forall i | 0 <= i < |nfts|
          ensures r.value[i] == nfts[i].(image := upload(i).value)
        {
          if i < last {
            assert r.value[i] == done[i] && front[i] == nfts[i];
          }
        }
      }
    }
  }

  /**
   * What `onApprovePlan` does. `generate` answers the per-item generation
   * calls of the collection flow and `upload` the per-item image uploads.
   */
  function ApprovePlan(users: Users, uid: Option<string>, userData: Option<Account>, numberOfNfts: int,
                       step: Step, result: Option<seq<Nft>>,
                       debitReachable: bool, generate: nat -> Generation, upload: nat -> Option<string>,
                       refundReachable: bool): ApproveRun
  {
    Approve(users, uid, userData, numberOfNfts, step, result,
            debitReachable, Collection(numberOfNfts, generate), upload, refundReachable)
  }

  /** `ApprovePlan` once the collection flow's answer is known. */
  function Approve(users: Users, uid: Option<string>, userData: Option<Account>, numberOfNfts: int,
                   step: Step, result: Option<seq<Nft>>,
                   debitReachable: bool, collection: Option<seq<Nft>>, upload: nat -> Option<string>,
                   refundReachable: bool): ApproveRun
  {
    var cost := GenerationCreditCost(numberOfNfts);
    if uid.None? || userData.None? then ApproveRun([], step, result, LoginRequired)
    else if userData.value.credits < cost then ApproveRun([], step, result, InsufficientCredits)
    else
      var debited := Accepts(users, Increment(uid.value, Credits, -cost), debitReachable);
      var response := if debited then collection else None;
      var uploaded := if response.Some? then UploadAll(response.value, upload) else None;
      var tried := Attempted(uid.value, cost, debited, response, uploaded);
      if uploaded.Some? then ApproveRun(tried, ResultShown, uploaded, Completed)
      else Compensate(users, uid.value, cost, tried, response, refundReachable)
  }

  /**
   * The effects of the `try` of `onApprovePlan` up to its end or its first
   * throw: the debit, the collection request once the debit landed, and the
   * image uploads once the collection came back.
   */
  function Attempted(uid: string, cost: int, debited: bool, response: Option<seq<Nft>>,
                     uploaded: Option<seq<Nft>>): seq<Effect>
  {
    [Wrote(Increment(uid, Credits, -cost), debited)]
    + (if debited then [Invoked(Generate, response.Some?)] else [])
    + (if response.Some? then [Invoked(Upload, uploaded.Some?)] else [])
  }

  /**
   * The `catch` of `onApprovePlan`: `tried` is what the `try` did before it
   * threw and `reached` the collection it had shown by then, if any. The
   * refund of `cost` credits runs whatever threw; if it lands the page goes
   * back to the plan, otherwise its own throw leaves the page where it was.
   */
  function Compensate(users: Users, uid: string, cost: int, tried: seq<Effect>,
                      reached: Option<seq<Nft>>, refundReachable: bool): ApproveRun
  {
    var refund := Increment(uid, Credits, cost);
    if Accepts(users, refund, refundReachable) then
      ApproveRun(tried + [Wrote(refund, true)], Plan, reached, Failed)
    else
      ApproveRun(tried + [Wrote(refund, false)], if reached.Some? then ResultShown else Generating,
                 reached, RefundThrew)
  }

  /** `createNftCollection({...values, plan})`, as the page sees it. */
  method RequestCollection(numberOfNfts: int, generate: nat -> Generation) returns (response: Option<seq<Nft>>)
    ensures response == Collection(numberOfNfts, generate)
  {
    var calls;
    response, calls := CreateNftCollection(numberOfNfts, generate);
  }

  /**
   * The `try` of `onApprovePlan` up to the first throw: the debit, the
   * collection request once the debit landed, and the image uploads once the
   * collection came back. `response` is the collection the page was shown and
   * `uploaded` the collection with its storage URLs.
   */
  method Attempt(store: UserStore, uid: string, cost: int, debitReachable: bool,
                 numberOfNfts: int, generate: nat -> Generation, upload: nat -> Option<string>)
    returns (debited: bool, response: Option<seq<Nft>>, uploaded: Option<seq<Nft>>, trace: seq<Effect>)
    modifies store
    ensures debited == Accepts(old(store.users), Increment(uid, Credits, -cost), debitReachable)
    ensures response == if debited then Collection(numberOfNfts, generate) else None
    ensures uploaded == if response.Some? then UploadAll(response.value, upload) else None
    ensures trace == Attempted(uid, cost, debited, response, uploaded)
    ensures store.users == Replay(old(store.users), trace)
    ensures store.users.Keys == old(store.users).Keys
  {
    ghost var users := store.users;
    debited, trace := store.Record(users, [], Increment(uid, Credits, -cost), debitReachable);
    ReplayOne(users, trace[0]);
    response, uploaded := None, None;
    if debited {
      response := RequestCollection(numberOfNfts, generate);
      ReplaySnoc(users, trace, Invoked(Generate, response.Some?));
      trace := trace + [Invoked(Generate, response.Some?)];
      if response.Some? {
        uploaded := UploadAll(response.value, upload);
        ReplaySnoc(users, trace, Invoked(Upload, uploaded.Some?));
        trace := trace + [Invoked(Upload, uploaded.Some?)];
      }
    }
  }

  class Page {
    var step: Step
    var plan: string
    var result: Option<seq<Nft>>

    constructor ()
      ensures step == Initial && plan == "" && result == None
    {
      step, plan, result := Initial, "", None;
    }

    method OnGeneratePlan(store: UserStore, uid: Option<string>, userData: Option<Account>,
                          debitReachable: bool, generated: Option<string>, refundReachable: bool)
      returns (status: Status, trace: seq<Effect>)
      modifies this, store
      ensures var run := GeneratePlan(old(store.users), uid, userData, old(step), old(plan),
                                      debitReachable, generated, refundReachable);
              trace == run.trace && step == run.step && plan == run.plan && status == run.status
      ensures result == old(result)
      ensures store.users == Replay(old(store.users), trace)
    {
      trace := [];
      if uid.None? || userData.None? {
        status := LoginRequired;
        return;
      }
      if userData.value.credits < PlanCreditCost {
        status := InsufficientCredits;
        return;
      }
      step := Plan;
      var debited, refunded;
      debited, trace := store.Record(old(store.users), trace, Increment(uid.value, Credits, -PlanCreditCost), debitReachable);
      if debited {
        ReplaySnoc(old(store.users), trace, Invoked(Generate, generated.Some?));
        trace := trace + [Invoked(Generate, generated.Some?)];
        if generated.Some? {
          plan := generated.value;
          status := Completed;
          return;
        }
      }
      refunded, trace := store.Record(old(store.users), trace, Increment(uid.value, Credits, PlanCreditCost), refundReachable);
      if refunded {
        step := Initial;
        status := Failed;
      } else {
        status := RefundThrew;
      }
    }

    method OnApprovePlan(store: UserStore, uid: Option<string>, userData: Option<Account>, numberOfNfts: int,
                         debitReachable: bool, generate: nat -> Generation, upload: nat -> Option<string>,
                         refundReachable: bool)
      returns (status: Status, trace: seq<Effect>)
      modifies this, store
      ensures var run := ApprovePlan(old(store.users), uid, userData, numberOfNfts, old(step), old(result),
                                     debitReachable, generate, upload, refundReachable);
              trace == run.trace && step == run.step && result == run.result && status == run.status
      ensures plan == old(plan)
      ensures store.users == Replay(old(store.users), trace)
    {
      trace := [];
      var cost := GenerationCreditCost(numberOfNfts);
      if uid.None? || userData.None? {
        status := LoginRequired;
        return;
      }
      if userData.value.credits < cost {
        status := InsufficientCredits;
        return;
      }
      ghost var users := old(store.users);
      step := Generating;
      result := None;
      var debited, response, uploaded, refunded;
      debited, response, uploaded, trace := Attempt(store, uid.value, cost, debitReachable, numberOfNfts, generate, upload);
      if response.Some? {
        result := response;
        step := ResultShown;
        if uploaded.Some? {
          result := uploaded;
          status := Completed;
          return;
        }
      }
      ghost var tried := trace;
      refunded, trace := store.Record(users, trace, Increment(uid.value, Credits, cost), refundReachable);
      if refunded {
        step := Plan;
        status := Failed;
      } else {
        status := RefundThrew;
      }
      assert (trace, step, result, status) == (var run := Compensate(users, uid.value, cost, tried, response, refundReachable);
                                               (run.trace, run.step, run.result, run.status));
    }

    /** `handleEdit`: back to the form, dropping the result but keeping the plan text. */
    method HandleEdit()
      modifies this
      ensures step == Initial && result == None && plan == old(plan)
    {
      step := Initial;
      result := None;
    }
  }

  /** A plan request from a balance under 3 credits, or without a user, writes nothing. */
  lemma RejectedPlanWritesNothing(users: Users, uid: Option<string>, userData: Option<Account>,
                                  step: Step, plan: string,
                                  debitReachable: bool, generated: Option<string>, refundReachable: bool)
    requires uid.None? || userData.None? || userData.value.credits < PlanCreditCost
    ensures var run := GeneratePlan(users, uid, userData, step, plan, debitReachable, generated, refundReachable);
            run.trace == [] && run.step == step && run.plan == plan
  {
  }

  /** A failed plan generation after an accepted debit, once refunded, leaves the collection as it was. */
  lemma FailedPlanIsNetZero(users: Users, uid: string, userData: Account, step: Step, plan: string)
    requires uid in users && userData.credits >= PlanCreditCost
    ensures var run := GeneratePlan(users, Some(uid), Some(userData), step, plan, true, None, true);
            Replay(users, run.trace) == users && run.step == Initial && run.status == Failed
  {
    var run := GeneratePlan(users, Some(uid), Some(userData), step, plan, true, None, true);
    ReplayThree(users, run.trace[0], run.trace[1], run.trace[2]);
    ReplayTwo(users, run.trace[0], run.trace[2]);
    IncrementUndone(users, uid, Credits, PlanCreditCost);
  }

  /** A successful plan takes exactly 3 credits and touches nothing else. */
  lemma PlanCharges3(users: Users, uid: string, userData: Account, step: Step, plan: string, text: string)
    requires uid in users && userData.credits >= PlanCreditCost
    ensures var run := GeneratePlan(users, Some(uid), Some(userData), step, plan, true, Some(text), true);
            var after := Replay(users, run.trace);
            run.status == Completed && run.plan == text && run.step == Plan
            && after == users[uid := users[uid].(credits := users[uid].credits - PlanCreditCost)]
  {
    var run := GeneratePlan(users, Some(uid), Some(userData), step, plan, true, Some(text), true);
    ReplayTwo(users, run.trace[0], run.trace[1]);
  }

  /**
   * The plan is generated only right after a debit of 3 credits the store
   * accepted: `generateNftPlan` is always the second effect.
   */
  lemma PlanGenerationFollowsDebit(users: Users, uid: Option<string>, userData: Option<Account>,
                                   step: Step, plan: string,
                                   debitReachable: bool, generated: Option<string>, refundReachable: bool, i: int)
    requires var run := GeneratePlan(users, uid, userData, step, plan, debitReachable, generated, refundReachable);
             0 <= i < |run.trace| && run.trace[i] == Invoked(Generate, run.trace[i].ok)
    ensures var run := GeneratePlan(users, uid, userData, step, plan, debitReachable, generated, refundReachable);
            i == 1 && run.trace[0] == Wrote(Increment(uid.value, Credits, -PlanCreditCost), true)
  {
  }

  /**
   * The plan's debit sits inside the `try`: when it throws, no plan is
   * requested, yet the refund still runs and adds 3 credits.
   */
  lemma PlanFailedDebitStillRefunded(users: Users, uid: string, userData: Account, step: Step, plan: string,
                                     generated: Option<string>)
    requires uid in users && userData.credits >= PlanCreditCost
    ensures var run := GeneratePlan(users, Some(uid), Some(userData), step, plan, false, generated, true);
            (forall i :: 0 <= i < |run.trace| ==> !run.trace[i].Invoked?)
            && Replay(users, run.trace) == users[uid := users[uid].(credits := users[uid].credits + PlanCreditCost)]
            && run.step == Initial && run.status == Failed
  {
    var run := GeneratePlan(users, Some(uid), Some(userData), step, plan, false, generated, true);
    ReplayTwo(users, run.trace[0], run.trace[1]);
  }

  /** The credits of `uid` are present and non-negative. */
  predicate CreditsNonNegative(users: Users, uid: string)
  {
    uid in users && users[uid].credits >= 0
  }

  /** A debit of at most the balance keeps the credits non-negative, whether it lands or not. */
  lemma DebitWithinBalance(users: Users, uid: string, cost: int, ok: bool)
    requires CreditsNonNegative(users, uid) && cost <= users[uid].credits
    ensures CreditsNonNegative(ApplyEffect(users, Wrote(Increment(uid, Credits, -cost), ok)), uid)
  {
  }

  /** A refund of a non-negative amount keeps the credits non-negative, whether it lands or not. */
  lemma RefundRaises(users: Users, uid: string, cost: int, ok: bool)
    requires CreditsNonNegative(users, uid) && cost >= 0
    ensures CreditsNonNegative(ApplyEffect(users, Wrote(Increment(uid, Credits, cost), ok)), uid)
  {
  }

  /**
   * With the snapshot equal to a non-negative stored document, a plan request
   * never leaves the balance below zero, whatever fails.
   */
  lemma PlanKeepsCreditsNonNegative(users: Users, uid: string, step: Step, plan: string,
                                    debitReachable: bool, generated: Option<string>, refundReachable: bool)
    requires CreditsNonNegative(users, uid)
    ensures var run := GeneratePlan(users, Some(uid), Some(users[uid]), step, plan,
                                    debitReachable, generated, refundReachable);
            CreditsNonNegative(Replay(users, run.trace), uid)
  {
    var run := GeneratePlan(users, Some(uid), Some(users[uid]), step, plan,
                            debitReachable, generated, refundReachable);
    if users[uid].credits < PlanCreditCost {
      assert run.trace == [];
      return;
    }
    var debit := Increment(uid, Credits, -PlanCreditCost);
    var refund := Increment(uid, Credits, PlanCreditCost);
    var debited := Accepts(users, debit, debitReachable);
    var refunded := Accepts(users, refund, refundReachable);
    var mid := ApplyEffect(users, Wrote(debit, debited));
    DebitWithinBalance(users, uid, PlanCreditCost, debited);
    if debited && generated.Some? {
      ReplayTwo(users, Wrote(debit, true), Invoked(Generate, true));
    } else if debited {
      assert run.trace == [Wrote(debit, true), Invoked(Generate, false), Wrote(refund, refunded)];
      ReplayThree(users, Wrote(debit, true), Invoked(Generate, false), Wrote(refund, refunded));
      RefundRaises(mid, uid, PlanCreditCost, refunded);
    } else {
      assert run.trace == [Wrote(debit, false), Wrote(refund, refunded)];
      ReplayTwo(users, Wrote(debit, false), Wrote(refund, refunded));
      RefundRaises(mid, uid, PlanCreditCost, refunded);
    }
  }

  /** A collection request from a balance under its cost, or without a user, writes nothing. */
  lemma RejectedApprovalWritesNothing(users: Users, uid: Option<string>, userData: Option<Account>, numberOfNfts: int,
                                      step: Step, result: Option<seq<Nft>>,
                                      debitReachable: bool, generate: nat -> Generation, upload: nat -> Option<string>,
                                      refundReachable: bool)
    requires uid.None? || userData.None? || userData.value.credits < GenerationCreditCost(numberOfNfts)
    ensures var run := ApprovePlan(users, uid, userData, numberOfNfts, step, result,
                                   debitReachable, generate, upload, refundReachable);
            run.trace == [] && run.step == step && run.result == result
  {
  }

  /**
   * A collection completes exactly when the debit lands, no generation
   * throws and every item's image uploads; the result shown is then the
   * generated collection, item for item, with each image replaced by its
   * storage URL.
   */
  lemma CompletedIsUploadedCollection(users: Users, uid: Option<string>, userData: Option<Account>,
                                      numberOfNfts: int, step: Step, result: Option<seq<Nft>>,
                                      debitReachable: bool, generate: nat -> Generation,
                                      upload: nat -> Option<string>, refundReachable: bool)
    ensures var run := ApprovePlan(users, uid, userData, numberOfNfts, step, result,
                                   debitReachable, generate, upload, refundReachable);
            var cost := GenerationCreditCost(numberOfNfts);
            var collection := Collection(numberOfNfts, generate);
            run.status == Completed <==>
              uid.Some? && userData.Some? && userData.value.credits >= cost
              && Accepts(users, Increment(uid.value, Credits, -cost), debitReachable)
              && collection.Some? && forall i :: 0 <= i < |collection.value| ==> upload(i).Some?
    ensures var run := ApprovePlan(users, uid, userData, numberOfNfts, step, result,
                                   debitReachable, generate, upload, refundReachable);
            var collection := Collection(numberOfNfts, generate);
            run.status == Completed ==>
              collection.Some? && run.result.Some? && |run.result.value| == |collection.value|
              && forall i :: 0 <= i < |collection.value| ==>
                   run.result.value[i] == collection.value[i].(image := upload(i).value)
  {
    var collection := Collection(numberOfNfts, generate);
    if collection.Some? {
      UploadAllReplacesImages(collection.value, upload);
    }
  }

  /** The effects of a collection request that completes: the debit, the generation and the uploads. */
  function LandedTrace(uid: string, cost: int): seq<Effect>
  {
    [Wrote(Increment(uid, Credits, -cost), true), Invoked(Generate, true), Invoked(Upload, true)]
  }

  /** A collection whose uploads all land completes and shows the uploaded items. */
  lemma ApprovalLands(users: Users, uid: string, userData: Account, numberOfNfts: int,
                      step: Step, result: Option<seq<Nft>>, collection: seq<Nft>, upload: nat -> Option<string>)
    requires uid in users && userData.credits >= GenerationCreditCost(numberOfNfts)
    requires UploadAll(collection, upload).Some?
    ensures Approve(users, Some(uid), Some(userData), numberOfNfts, step, result, true, Some(collection), upload, true)
            == ApproveRun(LandedTrace(uid, GenerationCreditCost(numberOfNfts)), ResultShown,
                          UploadAll(collection, upload), Completed)
  {
    var cost := GenerationCreditCost(numberOfNfts);
    var uploaded := UploadAll(collection, upload);
    assert Accepts(users, Increment(uid, Credits, -cost), true);
    assert Attempted(uid, cost, true, Some(collection), uploaded) == LandedTrace(uid, cost);
  }

  /** A completed collection request keeps the charge of `cost` credits. */
  lemma LandedTraceCharges(users: Users, uid: string, cost: int)
    requires uid in users
    ensures Replay(users, LandedTrace(uid, cost)) == users[uid := users[uid].(credits := users[uid].credits - cost)]
  {
    var t := LandedTrace(uid, cost);
    ReplayThree(users, t[0], t[1], t[2]);
    assert ApplyEffect(users, t[0]) == users[uid := users[uid].(credits := users[uid].credits - cost)];
  }

  /** When none of the first `n` generations is usable, nothing is collected. */
  lemma {:induction false} NothingUsableCollectsNothing(generate: nat -> Generation, n: nat)
    requires forall i :: 0 <= i < n ==> !Usable(generate(i))
    ensures Collected(generate, n) == []
  {
    if n > 0 {
      NothingUsableCollectsNothing(generate, n - 1);
    }
  }

  /**
   * A request none of whose generations is usable (and none throws) gets an
   * empty collection, and an empty collection has no upload that can fail:
   * the request completes with no items and keeps its charge.
   */
  lemma EmptyCollectionCompletes(users: Users, uid: string, userData: Account, numberOfNfts: int,
                                 step: Step, result: Option<seq<Nft>>,
                                 generate: nat -> Generation, upload: nat -> Option<string>)
    requires uid in users && userData.credits >= GenerationCreditCost(numberOfNfts)
    requires forall i :: 0 <= i < numberOfNfts ==> generate(i).Returned? && !Usable(generate(i))
    ensures var run := ApprovePlan(users, Some(uid), Some(userData), numberOfNfts, step, result,
                                   true, generate, upload, true);
            run.status == Completed && run.result == Some([])
            && Replay(users, run.trace)
               == users[uid := users[uid].(credits := users[uid].credits - GenerationCreditCost(numberOfNfts))]
  {
    var n: nat := if numberOfNfts <= 0 then 0 else numberOfNfts;
    NothingUsableCollectsNothing(generate, n);
    assert !AnyThrew(generate, n) by {
      forall i | 0 <= i < n ensures !generate(i).Threw? {
        assert generate(i).Returned?;
      }
    }
    assert Collection(numberOfNfts, generate) == Some([]);
    ApprovalLands(users, uid, userData, numberOfNfts, step, result, [], upload);
    LandedTraceCharges(users, uid, GenerationCreditCost(numberOfNfts));
  }

  /**
   * Whatever throws after an accepted debit (a generation or an image
   * upload), the refund restores the collection and the page returns to the plan.
   */
  lemma FailedApprovalIsNetZero(users: Users, uid: string, userData: Account, numberOfNfts: int,
                                step: Step, result: Option<seq<Nft>>,
                                generate: nat -> Generation, upload: nat -> Option<string>)
    requires uid in users && userData.credits >= GenerationCreditCost(numberOfNfts)
    requires var collection := Collection(numberOfNfts, generate);
             collection.None? || exists i :: 0 <= i < |collection.value| && upload(i).None?
    ensures var run := ApprovePlan(users, Some(uid), Some(userData), numberOfNfts, step, result,
                                   true, generate, upload, true);
            Replay(users, run.trace) == users && run.step == Plan && run.status == Failed
  {
    var cost := GenerationCreditCost(numberOfNfts);
    var run := ApprovePlan(users, Some(uid), Some(userData), numberOfNfts, step, result,
                           true, generate, upload, true);
    var t := run.trace;
    var debit, refund := Wrote(Increment(uid, Credits, -cost), true), Wrote(Increment(uid, Credits, cost), true);
    IncrementUndone(users, uid, Credits, cost);
    ReplayTwo(users, debit, refund);
    if Collection(numberOfNfts, generate).None? {
      assert t == [debit, Invoked(Generate, false), refund];
      ReplayThree(users, t[0], t[1], t[2]);
    } else {
      UploadAllReplacesImages(Collection(numberOfNfts, generate).value, upload);
      assert UploadAll(Collection(numberOfNfts, generate).value, upload).None?;
      assert t == [debit, Invoked(Generate, true), Invoked(Upload, false), refund];
      ReplayFour(users, t[0], t[1], t[2], t[3]);
    }
  }

  /** At most one item is collected per generation. */
  lemma {:induction false} CollectedAtMost(generate: nat -> Generation, n: nat)
    ensures |Collected(generate, n)| <= n
  {
    if n > 0 {
      CollectedAtMost(generate, n - 1);
    }
  }

  /** Uploads that all land for the first `n` indices land for any collection of at most `n` items. */
  lemma UploadsWithinCount(nfts: seq<Nft>, upload: nat -> Option<string>, n: int)
    requires |nfts| <= n && forall i :: 0 <= i < n ==> upload(i).Some?
    ensures UploadAll(nfts, upload).Some? && |UploadAll(nfts, upload).value| == |nfts|
  {
    UploadAllReplacesImages(nfts, upload);
  }

  /**
   * The charge is the requested count, not the delivered one: a completed
   * collection takes `numberOfNfts` credits however many items came back.
   */
  lemma ChargeIgnoresSkippedItems(users: Users, uid: string, userData: Account, numberOfNfts: int,
                                  step: Step, result: Option<seq<Nft>>,
                                  generate: nat -> Generation, upload: nat -> Option<string>)
    requires uid in users && ValidNumberOfNfts(numberOfNfts) && userData.credits >= numberOfNfts
    requires !AnyThrew(generate, numberOfNfts)
    requires forall i :: 0 <= i < numberOfNfts ==> upload(i).Some?
    ensures var run := ApprovePlan(users, Some(uid), Some(userData), numberOfNfts, step, result,
                                   true, generate, upload, true);
            var after := Replay(users, run.trace);
            run.status == Completed && run.result.Some?
            && |run.result.value| == |Collected(generate, numberOfNfts)| <= numberOfNfts
            && after == users[uid := users[uid].(credits := users[uid].credits - numberOfNfts)]
  {
    var collected := Collected(generate, numberOfNfts);
    CollectedAtMost(generate, numberOfNfts);
    assert Collection(numberOfNfts, generate) == Some(collected);
    UploadsWithinCount(collected, upload, numberOfNfts);
    ApprovalLands(users, uid, userData, numberOfNfts, step, result, collected, upload);
    LandedTraceCharges(users, uid, numberOfNfts);
  }

  /**
   * The debit sits inside the `try`: when it throws, the collection is never
   * generated, yet the refund still runs and adds `cost` credits.
   */
  lemma FailedDebitStillRefunded(users: Users, uid: string, userData: Account, numberOfNfts: int,
                                 step: Step, result: Option<seq<Nft>>,
                                 generate: nat -> Generation, upload: nat -> Option<string>)
    requires uid in users && userData.credits >= GenerationCreditCost(numberOfNfts)
    ensures var run := ApprovePlan(users, Some(uid), Some(userData), numberOfNfts, step, result,
                                   false, generate, upload, true);
            var cost := GenerationCreditCost(numberOfNfts);
            (forall i :: 0 <= i < |run.trace| ==> !run.trace[i].Invoked?)
            && Replay(users, run.trace) == users[uid := users[uid].(credits := users[uid].credits + cost)]
  {
    var run := ApprovePlan(users, Some(uid), Some(userData), numberOfNfts, step, result,
                           false, generate, upload, true);
    ReplayTwo(users, run.trace[0], run.trace[1]);
  }

  /** The collection is generated only right after a debit the store accepted. */
  lemma GenerationFollowsDebit(users: Users, uid: Option<string>, userData: Option<Account>, numberOfNfts: int,
                               step: Step, result: Option<seq<Nft>>,
                               debitReachable: bool, generate: nat -> Generation, upload: nat -> Option<string>,
                               refundReachable: bool, i: int)
    requires var run := ApprovePlan(users, uid, userData, numberOfNfts, step, result,
                                    debitReachable, generate, upload, refundReachable);
             0 <= i < |run.trace| && run.trace[i] == Invoked(Generate, run.trace[i].ok)
    ensures var run := ApprovePlan(users, uid, userData, numberOfNfts, step, result,
                                   debitReachable, generate, upload, refundReachable);
            i == 1 && run.trace[0] == Wrote(Increment(uid.value, Credits, -GenerationCreditCost(numberOfNfts)), true)
  {
  }

  /** The `try` of a collection request writes only its debit, so it keeps a balance of at least `cost` non-negative. */
  lemma AttemptedKeepsCreditsNonNegative(users: Users, uid: string, cost: int, debited: bool,
                                         response: Option<seq<Nft>>, uploaded: Option<seq<Nft>>)
    requires CreditsNonNegative(users, uid) && cost <= users[uid].credits
    ensures CreditsNonNegative(Replay(users, Attempted(uid, cost, debited, response, uploaded)), uid)
  {
    var t := Attempted(uid, cost, debited, response, uploaded);
    var debit := Wrote(Increment(uid, Credits, -cost), debited);
    DebitWithinBalance(users, uid, cost, debited);
    assert t == [debit] + t[1..];
    assert CallsOnly(t[1..]);
    ReplayAppend(users, [debit], t[1..]);
    ReplayOne(users, debit);
    ReplayCallsOnly(ApplyEffect(users, debit), t[1..]);
  }

  /**
   * With the snapshot equal to a non-negative stored document, a collection
   * request never leaves the balance below zero, whatever fails.
   */
  lemma ApprovalKeepsCreditsNonNegative(users: Users, uid: string, numberOfNfts: int,
                                        step: Step, result: Option<seq<Nft>>, debitReachable: bool,
                                        generate: nat -> Generation, upload: nat -> Option<string>,
                                        refundReachable: bool)
    requires CreditsNonNegative(users, uid)
    ensures var run := ApprovePlan(users, Some(uid), Some(users[uid]), numberOfNfts, step, result,
                                   debitReachable, generate, upload, refundReachable);
            CreditsNonNegative(Replay(users, run.trace), uid)
  {
    var cost := GenerationCreditCost(numberOfNfts);
    var collection := Collection(numberOfNfts, generate);
    var run := Approve(users, Some(uid), Some(users[uid]), numberOfNfts, step, result,
                       debitReachable, collection, upload, refundReachable);
    if users[uid].credits < cost {
      assert run.trace == [];
      return;
    }
    var debited := Accepts(users, Increment(uid, Credits, -cost), debitReachable);
    var response := if debited then collection else None;
    var uploaded := if response.Some? then UploadAll(response.value, upload) else None;
    var tried := Attempted(uid, cost, debited, response, uploaded);
    AttemptedKeepsCreditsNonNegative(users, uid, cost, debited, response, uploaded);
    if uploaded.None? {
      var refund := Increment(uid, Credits, cost);
      var refunded := Accepts(users, refund, refundReachable);
      assert run.trace == tried + [Wrote(refund, refunded)];
      ReplaySnoc(users, tried, Wrote(refund, refunded));
      RefundRaises(Replay(users, tried), uid, cost, refunded);
    }
  }
}
