/**
 * The Stripe webhook (`POST /api/stripe-webhook`). A verified
 * `checkout.session.completed` event adds the credits of the purchased plan
 * to the user named by the session's `client_reference_id`; every other
 * request ends in an early reply that writes nothing.
 */
module StripeWebhook {
  import opened Wrappers
  import opened Ledger
  import opened JsText

  /** The environment the route reads at start-up (`None` for an unset variable), and whether the admin store is up. */
  datatype Config = Config(secretKey: Option<string>, webhookSecret: Option<string>,
                           starterPriceId: Option<string>, proPriceId: Option<string>,
                           scalePriceId: Option<string>, adminDbReady: bool)

  /** The parts of a verified event the route looks at. */
  datatype Event = Event(eventType: string, clientReferenceId: Option<string>)

  /** A line item of the retrieved session; `priceId` is `price?.id`. */
  datatype LineItem = LineItem(priceId: Option<string>)

  const CheckoutCompleted := "checkout.session.completed"
  const StarterCredits := 40
  const ProCredits := 100
  const ScaleCredits := 250

  /** A Stripe client exists only for a key that is set and is not the placeholder. */
  predicate HasClient(cfg: Config)
  {
    Truthy(cfg.secretKey) && cfg.secretKey.value != "sk_test_..."
  }

  /** The configuration check at the top of `POST`. */
  predicate Configured(cfg: Config)
  {
    HasClient(cfg) && Truthy(cfg.webhookSecret) && cfg.webhookSecret.value != "whsec_..."
  }

  /** The key an environment variable contributes to the table: an unset one becomes the string "undefined". */
  function TableKey(env: Option<string>): string
  {
    if env.None? then "undefined" else env.value
  }

  /**
   * `creditsPerPrice[priceId]`, 0 standing for a miss. The table is an object
   * literal, so when two variables hold the same id the later entry wins:
   * scale over pro over starter.
   */
  function CreditsForPrice(cfg: Config, priceId: string): (credits: int)
    ensures credits == ScaleCredits <==> priceId == TableKey(cfg.scalePriceId)
    ensures credits == ProCredits <==> priceId != TableKey(cfg.scalePriceId) && priceId == TableKey(cfg.proPriceId)
    ensures credits == StarterCredits <==>
              priceId != TableKey(cfg.scalePriceId) && priceId != TableKey(cfg.proPriceId)
              && priceId == TableKey(cfg.starterPriceId)
    ensures credits == 0 <==> priceId !in {TableKey(cfg.scalePriceId), TableKey(cfg.proPriceId),
                                            TableKey(cfg.starterPriceId)}
  {
    if priceId == TableKey(cfg.scalePriceId) then ScaleCredits
    else if priceId == TableKey(cfg.proPriceId) then ProCredits
    else if priceId == TableKey(cfg.starterPriceId) then StarterCredits
    else 0
  }

  /** What the route decides before any write: an early reply, or a grant of credits to a user. */
  datatype Decision = Reply(status: int) | Grant(uid: string, credits: int)

  /**
   * The early returns of `POST`, in order. `verified` is what
   * `constructEvent` returns (`None` when the signature check throws);
   * `retrieved` is what `sessions.retrieve` returns (`None` when it throws),
   * itself holding `line_items` when present.
   */
  function Decide(cfg: Config, verified: Option<Event>, retrieved: Option<Option<seq<LineItem>>>): Decision
  {
    if !Configured(cfg) then Reply(503)
    else if !cfg.adminDbReady then Reply(500)
    else if verified.None? then Reply(400)
    else if verified.value.eventType != CheckoutCompleted then Reply(200)
    else if !Truthy(verified.value.clientReferenceId) then Reply(400)
    else if retrieved.None? then Reply(500)
    else if retrieved.value.None? || |retrieved.value.value| == 0 then Reply(400)
    else
      var priceId := retrieved.value.value[0].priceId;
      var credits := if Truthy(priceId) then CreditsForPrice(cfg, priceId.value) else 0;
      if credits > 0 then Grant(verified.value.clientReferenceId.value, credits) else Reply(200)
  }

  datatype Response = Response(status: int, users: Users)

  /** The reply and the collection after one request; `reachable` says whether the store takes the write. */
  function Handle(users: Users, cfg: Config, verified: Option<Event>, retrieved: Option<Option<seq<LineItem>>>,
                  reachable: bool): Response
  {
    match Decide(cfg, verified, retrieved)
    case Reply(status) => Response(status, users)
    case Grant(uid, credits) =>
      var w := Increment(uid, Credits, credits);
      if Accepts(users, w, reachable) then Response(200, Apply(users, w)) else Response(500, users)
  }

  /** `POST` against the store. */
  method Post(store: UserStore, cfg: Config, verified: Option<Event>, retrieved: Option<Option<seq<LineItem>>>,
              reachable: bool)
    returns (status: int)
    modifies store
    ensures Response(status, store.users) == Handle(old(store.users), cfg, verified, retrieved, reachable)
  {
    var decision := Decide(cfg, verified, retrieved);
    if decision.Reply? {
      return decision.status;
    }
    var ok := store.Update(Increment(decision.uid, Credits, decision.credits), reachable);
    status := if ok then 200 else 500;
  }

  /**
   * Credits are granted exactly for a configured route, a verified
   * completed checkout naming a user, and a first line item whose price is in
   * the table.
   */
  lemma GrantExactlyForPaidCheckout(cfg: Config, verified: Option<Event>, retrieved: Option<Option<seq<LineItem>>>)
    ensures var d := Decide(cfg, verified, retrieved);
            d.Grant? <==>
              Configured(cfg) && cfg.adminDbReady && verified.Some? && verified.value.eventType == CheckoutCompleted
              && Truthy(verified.value.clientReferenceId) && retrieved.Some? && retrieved.value.Some?
              && |retrieved.value.value| > 0 && Truthy(retrieved.value.value[0].priceId)
              && CreditsForPrice(cfg, retrieved.value.value[0].priceId.value) > 0
    ensures var d := Decide(cfg, verified, retrieved);
            d.Grant? ==> d.uid == verified.value.clientReferenceId.value
                         && d.credits == CreditsForPrice(cfg, retrieved.value.value[0].priceId.value)
                         && d.credits in {StarterCredits, ProCredits, ScaleCredits}
  {
  }

  /**
   * A granted request adds exactly the plan's credits to the named user and
   * changes nothing else; any other request leaves the collection as it was.
   */
  lemma OnlyGrantWrites(users: Users, cfg: Config, verified: Option<Event>, retrieved: Option<Option<seq<LineItem>>>,
                        reachable: bool)
    ensures var d := Decide(cfg, verified, retrieved);
            var r := Handle(users, cfg, verified, retrieved, reachable);
            if d.Grant? && d.uid in users && reachable then
              r.status == 200 && r.users == users[d.uid := users[d.uid].(credits := users[d.uid].credits + d.credits)]
            else
              r.users == users && (d.Grant? ==> r.status == 500) && (d.Reply? ==> r.status == d.status)
  {
  }

  /** The status codes the route answers with, and what each means. */
  lemma StatusCodes(users: Users, cfg: Config, verified: Option<Event>, retrieved: Option<Option<seq<LineItem>>>,
                    reachable: bool)
    ensures var r := Handle(users, cfg, verified, retrieved, reachable);
            r.status in {200, 400, 500, 503}
            && (r.status == 503 <==> !Configured(cfg))
            && (r.status == 400 <==>
                  (Configured(cfg) && cfg.adminDbReady
                   && (verified.None?
                       || (verified.value.eventType == CheckoutCompleted
                           && (!Truthy(verified.value.clientReferenceId)
                               || (retrieved.Some? && (retrieved.value.None? || |retrieved.value.value| == 0)))))))
  {
  }

  /** With all three price ids set and distinct, each buys its own plan. */
  lemma PriceTable(cfg: Config)
    requires cfg.starterPriceId.Some? && cfg.proPriceId.Some? && cfg.scalePriceId.Some?
    requires var s, p, c := cfg.starterPriceId.value, cfg.proPriceId.value, cfg.scalePriceId.value;
             s != p && s != c && p != c
    ensures CreditsForPrice(cfg, cfg.starterPriceId.value) == 40
    ensures CreditsForPrice(cfg, cfg.proPriceId.value) == 100
    ensures CreditsForPrice(cfg, cfg.scalePriceId.value) == 250
  {
  }

  /** An unset price variable makes the literal price id "undefined" buy that plan. */
  lemma UnsetPriceVariableMatchesUndefined(cfg: Config)
    requires cfg.scalePriceId.None?
    ensures CreditsForPrice(cfg, "undefined") == ScaleCredits
  {
  }

  /** The same request delivered `k` times, one after the other. */
  function Redeliver(users: Users, k: nat, cfg: Config, verified: Option<Event>,
                     retrieved: Option<Option<seq<LineItem>>>): Users
  {
    if k == 0 then users
    else Handle(Redeliver(users, k - 1, cfg, verified, retrieved), cfg, verified, retrieved, true).users
  }

  /**
   * Nothing remembers which events were handled: `k` deliveries of one paid
   * checkout add `k` times the plan's credits.
   */
  lemma {:induction false} RedeliveryCreditsAgain(users: Users, k: nat, cfg: Config, verified: Option<Event>,
                                                  retrieved: Option<Option<seq<LineItem>>>)
    requires var d := Decide(cfg, verified, retrieved);
             d.Grant? && d.uid in users
    ensures var d := Decide(cfg, verified, retrieved);
            var after := Redeliver(users, k, cfg, verified, retrieved);
            d.uid in after && after == users[d.uid := users[d.uid].(credits := users[d.uid].credits + k * d.credits)]
  {
    var d := Decide(cfg, verified, retrieved);
    if k == 0 {
      assert users[d.uid].(credits := users[d.uid].credits + 0) == users[d.uid];
    } else {
      RedeliveryCreditsAgain(users, k - 1, cfg, verified, retrieved);
      var before := Redeliver(users, k - 1, cfg, verified, retrieved);
      OnlyGrantWrites(before, cfg, verified, retrieved, true);
      CreditsAddUp(users, d.uid, (k - 1) * d.credits, d.credits);
      GrantsAddUp(k, d.credits);
    }
  }
}
