/**
 * The NOWPayments instant payment notification (`POST /api/nowpayments-ipn`).
 * A correctly signed notification of a finished payment adds the credits
 * bought by its amount to the user named by `order_id`. The amount is looked
 * up by its rendering with eight decimals.
 */
module NowPaymentsIpn {
  import opened Wrappers
  import opened Ledger
  import opened JsText

  const Placeholder := "<REPLACE_ME_WITH_YOUR_KEY>"
  const Finished := "finished"

  /** `getIpnSecret`: the key, unless it is unset, empty or still the placeholder. */
  function IpnSecret(env: Option<string>): (secret: Option<string>)
    ensures secret.Some? <==> env.Some? && env.value != "" && env.value != Placeholder
    ensures secret.Some? ==> secret == env
  {
    if env.None? || env.value == "" || env.value == Placeholder then None else env
  }

  // ---------------------------------------------------------------------------
  // `Number(price_amount).toFixed(8)` for an amount with at most eight decimals

  /** 10^8: amounts are counted in hundred-millionths. */
  const Scale: nat := 100000000

  /** `s` with zeros in front, up to `width` characters. */
  function PadZeros(s: string, width: nat): (r: string)
    ensures |r| == if |s| >= width then |s| else width
    decreases width - |s|
  {
    if |s| >= width then s else PadZeros("0" + s, width)
  }

  /** The key `toFixed(8)` gives an amount of `units` hundred-millionths. */
  function FixedEight(units: nat): string
  {
    Numeral(units / Scale) + "." + PadZeros(Numeral(units % Scale), 8)
  }

  /** Reads an amount back from a key: the part before the last nine characters, and the last eight. */
  function KeyValue(key: string): nat
    requires |key| >= 9
    requires forall i :: 0 <= i < |key| - 9 ==> IsDigit(key[i])
    requires forall i :: |key| - 8 <= i < |key| ==> IsDigit(key[i])
  {
    NumeralValue(key[..|key| - 9]) * Scale + NumeralValue(key[|key| - 8..])
  }

  lemma {:induction false} PadZerosKeepsValue(s: string, width: nat)
    requires AllDigits(s)
    ensures AllDigits(PadZeros(s, width))
    ensures NumeralValue(PadZeros(s, width)) == NumeralValue(s)
    decreases width - |s|
  {
    if |s| < width {
      LeadingZero(s);
      PadZerosKeepsValue("0" + s, width);
    }
  }

  /** The rendering is faithful: the key reads back as the amount it was made from. */
  lemma FixedEightRoundTrip(units: nat)
    ensures var key := FixedEight(units);
            |key| >= 9 && key[|key| - 9] == '.'
            && (forall i :: 0 <= i < |key| - 9 ==> IsDigit(key[i]))
            && (forall i :: |key| - 8 <= i < |key| ==> IsDigit(key[i]))
            && KeyValue(key) == units
  {
    var whole, frac := Numeral(units / Scale), Numeral(units % Scale);
    NumeralRoundTrip(units / Scale);
    NumeralRoundTrip(units % Scale);
    NumeralLength(units % Scale, 8);
    PadZerosKeepsValue(frac, 8);
    var padded := PadZeros(frac, 8);
    var key := FixedEight(units);
    assert key == whole + "." + padded;
    assert key[..|key| - 9] == whole;
    assert key[|key| - 8..] == padded;
  }

  /** Two amounts share a key only when they are equal. */
  lemma FixedEightInjective(u: nat, v: nat)
    ensures FixedEight(u) == FixedEight(v) <==> u == v
  {
    FixedEightRoundTrip(u);
    FixedEightRoundTrip(v);
  }

  // ---------------------------------------------------------------------------
  // the request

  /**
   * The notification body. `priceAmount` is an amount in hundred-millionths,
   * or `None` for a value `Number` cannot read, which renders as "NaN".
   */
  datatype IpnBody = IpnBody(paymentStatus: Option<string>, orderId: Option<string>, priceAmount: Option<nat>)

  /** The lookup key of an amount. */
  function AmountKey(amount: Option<nat>): string
  {
    if amount.None? then "NaN" else FixedEight(amount.value)
  }

  /** `creditsPerAmount[amountKey] || 0`. */
  function CreditsForKey(key: string): (credits: int)
    ensures credits in {0, 40, 100, 250}
  {
    if key == "25.00000000" then 40
    else if key == "50.00000000" then 100
    else if key == "100.00000000" then 250
    else 0
  }

  /** A run of zeros pads to eight zeros. */
  lemma {:induction false} ZerosPadToEight(z: string)
    requires 1 <= |z| <= 8 && forall i :: 0 <= i < |z| ==> z[i] == '0'
    ensures PadZeros(z, 8) == "00000000"
    decreases 8 - |z|
  {
    if |z| < 8 {
      ZerosPadToEight("0" + z);
    } else {
      assert z == "00000000";
    }
  }

  /** The fraction of a whole amount renders as eight zeros. */
  lemma WholeFraction()
    ensures PadZeros(Numeral(0), 8) == "00000000"
  {
    assert Numeral(0) == "0";
    ZerosPadToEight("0");
  }

  /** The key of 25. */
  lemma Key25()
    ensures FixedEight(25 * Scale) == "25.00000000"
  {
    WholeFraction();
    assert Numeral(25) == Numeral(2) + "5" == "25";
  }

  /** The key of 50. */
  lemma Key50()
    ensures FixedEight(50 * Scale) == "50.00000000"
  {
    WholeFraction();
    assert Numeral(50) == Numeral(5) + "0" == "50";
  }

  /** The key of 100. */
  lemma Key100()
    ensures FixedEight(100 * Scale) == "100.00000000"
  {
    WholeFraction();
    assert Numeral(10) == Numeral(1) + "0" == "10";
    assert Numeral(100) == Numeral(10) + "0" == "100";
  }

  /** The keys of the table are the renderings of 25, 50 and 100. */
  lemma TableKeys()
    ensures FixedEight(25 * Scale) == "25.00000000"
    ensures FixedEight(50 * Scale) == "50.00000000"
    ensures FixedEight(100 * Scale) == "100.00000000"
  {
    Key25();
    Key50();
    Key100();
  }

  /** Exactly 25, 50 and 100 buy credits, 40, 100 and 250 of them. */
  lemma AmountTable(amount: Option<nat>)
    ensures var credits := CreditsForKey(AmountKey(amount));
            (credits == 40 <==> amount == Some(25 * Scale))
            && (credits == 100 <==> amount == Some(50 * Scale))
            && (credits == 250 <==> amount == Some(100 * Scale))
            && (credits == 0 <==> amount !in {Some(25 * Scale), Some(50 * Scale), Some(100 * Scale)})
  {
    TableKeys();
    if amount.Some? {
      FixedEightInjective(amount.value, 25 * Scale);
      FixedEightInjective(amount.value, 50 * Scale);
      FixedEightInjective(amount.value, 100 * Scale);
    }
  }

  datatype Decision = Reply(status: int) | Grant(uid: string, credits: int)

  /**
   * The returns of `POST` up to the write. `sign` stands for the HMAC-SHA512
   * hex digest of the body's sorted-key serialization under the secret, and
   * `header` is the `x-nowpayments-sig` header.
   */
  function Decide(secretEnv: Option<string>, dbReady: bool, header: Option<string>, body: IpnBody,
                  sign: (string, IpnBody) -> string): Decision
  {
    var secret := IpnSecret(secretEnv);
    if secret.None? then Reply(503)
    else if !dbReady then Reply(500)
    else if header != Some(sign(secret.value, body)) then Reply(400)
    else if body.paymentStatus != Some(Finished) then Reply(200)
    else if !Truthy(body.orderId) then Reply(400)
    else
      var credits := CreditsForKey(AmountKey(body.priceAmount));
      if credits > 0 then Grant(body.orderId.value, credits) else Reply(200)
  }

  datatype Response = Response(status: int, users: Users)

  /** The reply and the collection after one notification; `reachable` says whether the store takes the write. */
  function Handle(users: Users, secretEnv: Option<string>, dbReady: bool, header: Option<string>, body: IpnBody,
                  sign: (string, IpnBody) -> string, reachable: bool): Response
  {
    Settle(users, Decide(secretEnv, dbReady, header, body, sign), reachable)
  }

  /** Carrying out a decision: a reply as is, a grant as one credit increment. */
  function Settle(users: Users, d: Decision, reachable: bool): Response
  {
    match d
    case Reply(status) => Response(status, users)
    case Grant(uid, credits) =>
      var w := Increment(uid, Credits, credits);
      if Accepts(users, w, reachable) then Response(200, Apply(users, w)) else Response(500, users)
  }

  /** `POST` against the store. */
  method Post(store: UserStore, secretEnv: Option<string>, dbReady: bool, header: Option<string>, body: IpnBody,
              sign: (string, IpnBody) -> string, reachable: bool)
    returns (status: int)
    modifies store
    ensures Response(status, store.users) == Handle(old(store.users), secretEnv, dbReady, header, body, sign, reachable)
  {
    var decision := Decide(secretEnv, dbReady, header, body, sign);
    if decision.Reply? {
      return decision.status;
    }
    var ok := store.Update(Increment(decision.uid, Credits, decision.credits), reachable);
    status := if ok then 200 else 500;
  }

  /**
   * A notification whose header does not match the body's signature is
   * refused with 400 before its fields are looked at, and writes nothing.
   */
  lemma BadSignatureRefused(users: Users, secretEnv: Option<string>, header: Option<string>, body: IpnBody,
                            sign: (string, IpnBody) -> string, reachable: bool)
    requires IpnSecret(secretEnv).Some? && header != Some(sign(IpnSecret(secretEnv).value, body))
    ensures var r := Handle(users, secretEnv, true, header, body, sign, reachable);
            r.status == 400 && r.users == users
  {
  }

  /**
   * Credits are granted exactly for a signed, finished payment naming a user
   * with an amount in the table; the grant adds exactly those credits to that
   * user and nothing else changes. Every other notification writes nothing.
   */
  lemma GrantExactlyForFinishedPayment(users: Users, secretEnv: Option<string>, dbReady: bool, header: Option<string>,
                                       body: IpnBody, sign: (string, IpnBody) -> string, reachable: bool)
    ensures var d := Decide(secretEnv, dbReady, header, body, sign);
            d.Grant? <==>
              IpnSecret(secretEnv).Some? && dbReady && header == Some(sign(IpnSecret(secretEnv).value, body))
              && body.paymentStatus == Some(Finished) && Truthy(body.orderId)
              && CreditsForKey(AmountKey(body.priceAmount)) > 0
    ensures var d := Decide(secretEnv, dbReady, header, body, sign);
            var r := Handle(users, secretEnv, dbReady, header, body, sign, reachable);
            if d.Grant? && d.uid in users && reachable then
              r.status == 200
              && r.users == users[d.uid := users[d.uid].(credits := users[d.uid].credits + d.credits)]
            else r.users == users
  {
  }

  /** The status codes the route answers with. */
  lemma StatusCodes(users: Users, secretEnv: Option<string>, dbReady: bool, header: Option<string>, body: IpnBody,
                    sign: (string, IpnBody) -> string, reachable: bool)
    ensures var r := Handle(users, secretEnv, dbReady, header, body, sign, reachable);
            r.status in {200, 400, 500, 503}
            && (r.status == 503 <==> IpnSecret(secretEnv).None?)
            && (r.status == 400 <==>
                  IpnSecret(secretEnv).Some? && dbReady
                  && (header != Some(sign(IpnSecret(secretEnv).value, body))
                      || (body.paymentStatus == Some(Finished) && !Truthy(body.orderId))))
  {
  }

  /**
   * A payment first notified as waiting and then as finished, both signed,
   * is credited once: the waiting notice is answered 200 without a write,
   * and a 25-unit payment then adds 40 credits.
   */
  lemma WaitingThenFinished(users: Users, secretEnv: Option<string>, uid: string,
                            sign: (string, IpnBody) -> string)
    requires IpnSecret(secretEnv).Some? && uid != "" && uid in users
    ensures var secret := IpnSecret(secretEnv).value;
            var waiting := IpnBody(Some("waiting"), Some(uid), Some(25 * Scale));
            var finished := IpnBody(Some(Finished), Some(uid), Some(25 * Scale));
            var r1 := Handle(users, secretEnv, true, Some(sign(secret, waiting)), waiting, sign, true);
            var r2 := Handle(r1.users, secretEnv, true, Some(sign(secret, finished)), finished, sign, true);
            r1.status == 200 && r1.users == users
            && r2.status == 200 && r2.users == users[uid := users[uid].(credits := users[uid].credits + 40)]
  {
    AmountTable(Some(25 * Scale));
  }

  /** A granted notification adds its credits to the user it names, once the store takes the write. */
  lemma GrantAdds(users: Users, secretEnv: Option<string>, header: Option<string>, body: IpnBody,
                  sign: (string, IpnBody) -> string)
    requires var d := Decide(secretEnv, true, header, body, sign);
             d.Grant? && d.uid in users
    ensures var d := Decide(secretEnv, true, header, body, sign);
            Handle(users, secretEnv, true, header, body, sign, true).users
              == users[d.uid := users[d.uid].(credits := users[d.uid].credits + d.credits)]
  {
  }

  /**
   * The same notification delivered `k` times, one after the other. The
   * decision reads nothing from the store, so every delivery settles the
   * same decision.
   */
  function Redeliver(users: Users, k: nat, secretEnv: Option<string>, header: Option<string>, body: IpnBody,
                     sign: (string, IpnBody) -> string): Users
  {
    SettleTimes(users, k, Decide(secretEnv, true, header, body, sign))
  }

  /** `d` settled `k` times against a reachable store. */
  function SettleTimes(users: Users, k: nat, d: Decision): Users
  {
    if k == 0 then users else Settle(SettleTimes(users, k - 1, d), d, true).users
  }

  /** A grant settled `k` times adds `k` times its credits. */
  lemma {:induction false} GrantSettledTimes(users: Users, k: nat, uid: string, credits: int)
    requires uid in users
    ensures SettleTimes(users, k, Grant(uid, credits))
              == users[uid := users[uid].(credits := users[uid].credits + k * credits)]
  {
    if k == 0 {
      assert users[uid].(credits := users[uid].credits + 0) == users[uid];
    } else {
      GrantSettledTimes(users, k - 1, uid, credits);
      CreditsAddUp(users, uid, (k - 1) * credits, credits);
      GrantsAddUp(k, credits);
    }
  }

  /**
   * Nothing remembers which payments were credited: `k` deliveries of one
   * finished payment add `k` times its credits.
   */
  lemma RedeliveryCreditsAgain(users: Users, k: nat, secretEnv: Option<string>, header: Option<string>,
                               body: IpnBody, sign: (string, IpnBody) -> string)
    requires var d := Decide(secretEnv, true, header, body, sign);
             d.Grant? && d.uid in users
    ensures var d := Decide(secretEnv, true, header, body, sign);
            Redeliver(users, k, secretEnv, header, body, sign)
              == users[d.uid := users[d.uid].(credits := users[d.uid].credits + k * d.credits)]
  {
    var d := Decide(secretEnv, true, header, body, sign);
    GrantSettledTimes(users, k, d.uid, d.credits);
  }
}
