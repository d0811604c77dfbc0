/**
 * The Sign-In with Ethereum route (`POST /api/siwe`). The `nonce` action
 * hands out the stored nonce of a wallet's user document, creating the
 * document (5 credits, 5 free audits) on first contact; the `verify` action
 * checks the signed message, replaces the stored nonce and issues a custom
 * authentication token. Any error rotates the nonce of the message's
 * address, if it has one.
 */
module SiweRoute {
  import opened Wrappers
  import opened Ledger
  import opened JsText

  const WalletCredits := 5
  const WalletFreeAudits := 5

  /** The document `getOrCreateUser` writes for a new wallet. */
  function NewWalletAccount(address: string, nonce: string): (a: Account)
    ensures a.id == address && a.credits == 5 && a.freeAudits == 5 && !a.isAdmin && a.nonce == Some(nonce)
  {
    Account(address, WalletCredits, WalletFreeAudits, false, Some(nonce))
  }

  /** The part of the request body's `message` the route reads itself. */
  datatype Message = Message(address: Option<string>)

  datatype Reply = NonceReply(nonce: Option<string>) | TokenReply(token: string) | ErrorReply

  datatype SiweRun = SiweRun(trace: seq<Effect>, status: int, reply: Reply)

  /**
   * The `catch` block, entered after `tried` with the collection at
   * `current`. Reading `message.address` throws again when there is no
   * message at all; otherwise an address that is present is given the nonce
   * `nonce2`, and a failure of that write is swallowed.
   */
  function Catch(current: Users, tried: seq<Effect>, message: Option<Message>, nonce2: string,
                 rotateReachable: bool): SiweRun
  {
    if message.None? || !Truthy(message.value.address) then SiweRun(tried, 500, ErrorReply)
    else
      var w := SetNonce(message.value.address.value, nonce2);
      SiweRun(tried + [Wrote(w, Accepts(current, w, rotateReachable))], 500, ErrorReply)
  }

  /**
   * What `POST` does. `action` is the `action` query parameter; `verified`
   * is the address `SiweMessage.verify` vouches for (`None` when building or
   * verifying the message throws); `token` is what `createCustomToken`
   * returns (`None` when it throws); `nonce1` is the `uuidv4` value the
   * route itself writes (a new wallet's nonce at route.ts:21, or the rotated
   * nonce at route.ts:48), and `nonce2` is the one the `catch` writes
   * (route.ts:64). The flags say
   * whether the store answers the read, takes the route's write, and takes
   * the rotation in the `catch`.
   */
  function Post(users: Users, dbReady: bool, action: Option<string>, message: Option<Message>,
                verified: Option<string>, token: Option<string>, nonce1: string, nonce2: string,
                readReachable: bool, writeReachable: bool, rotateReachable: bool): SiweRun
  {
    if !dbReady then SiweRun([], 500, ErrorReply)
    else if action == Some("nonce") then NonceAction(users, message, nonce1, nonce2, readReachable, writeReachable, rotateReachable)
    else if action == Some("verify") then VerifyAction(users, message, verified, token, nonce1, nonce2, writeReachable, rotateReachable)
    else SiweRun([], 400, ErrorReply)
  }

  /** The `nonce` branch of `POST`. */
  function NonceAction(users: Users, message: Option<Message>, nonce1: string, nonce2: string,
                       readReachable: bool, writeReachable: bool, rotateReachable: bool): SiweRun
  {
    if message.None? then SiweRun([], 500, ErrorReply)
    else
      var address := message.value.address;
      if !Truthy(address) || !readReachable then Catch(users, [], message, nonce2, rotateReachable)
      else if address.value in users then SiweRun([], 200, NonceReply(users[address.value].nonce))
      else
        var w := Put(address.value, NewWalletAccount(address.value, nonce1));
        if writeReachable then SiweRun([Wrote(w, true)], 200, NonceReply(Some(nonce1)))
        else Catch(users, [Wrote(w, false)], message, nonce2, rotateReachable)
  }

  /** The `verify` branch of `POST`. */
  function VerifyAction(users: Users, message: Option<Message>, verified: Option<string>, token: Option<string>,
                        nonce1: string, nonce2: string, writeReachable: bool, rotateReachable: bool): SiweRun
  {
    if verified.None? then Catch(users, [Invoked(VerifySignature, false)], message, nonce2, rotateReachable)
    else
      var w := SetNonce(verified.value, nonce1);
      var rotated := Accepts(users, w, writeReachable);
      var tried := [Invoked(VerifySignature, true), Wrote(w, rotated)];
      if !rotated then Catch(users, tried, message, nonce2, rotateReachable)
      else if token.None? then
        Catch(Apply(users, w), tried + [Invoked(CreateToken, false)], message, nonce2, rotateReachable)
      else SiweRun(tried + [Invoked(CreateToken, true)], 200, TokenReply(token.value))
  }

  /**
   * The `nonce` action as written. `getOrCreateUser` reads the document
   * through the Admin SDK, whose snapshot has an `exists` property rather
   * than an `exists()` method, so the call `userDoc.exists()` throws once the
   * read has come back: every request lands in the `catch` block.
   */
  function NonceActionAsWritten(users: Users, message: Option<Message>, nonce2: string, rotateReachable: bool): SiweRun
  {
    if message.None? then SiweRun([], 500, ErrorReply)
    else Catch(users, [], message, nonce2, rotateReachable)
  }

  /**
   * As written, the `nonce` action never hands out a nonce: for a known
   * wallet with a reachable store it answers 500 and rotates the nonce, where
   * the evidently intended route answers 200 with the stored nonce.
   */
  lemma NonceActionAsWrittenFails(users: Users, address: string, nonce1: string, nonce2: string,
                                  verified: Option<string>, token: Option<string>)
    requires address != "" && address in users
    ensures var message := Some(Message(Some(address)));
            var asWritten := NonceActionAsWritten(users, message, nonce2, true);
            var intended := Post(users, true, Some("nonce"), message, verified, token, nonce1, nonce2, true, true, true);
            asWritten.status == 500 && asWritten.reply == ErrorReply
            && asWritten.trace == [Wrote(SetNonce(address, nonce2), true)]
            && intended.status == 200 && intended.reply == NonceReply(users[address].nonce)
            && (Replay(users, asWritten.trace) != Replay(users, intended.trace) <==> users[address].nonce != Some(nonce2))
  {
    var message := Some(Message(Some(address)));
    var asWritten := NonceActionAsWritten(users, message, nonce2, true);
    var w := SetNonce(address, nonce2);
    assert asWritten.trace == [Wrote(w, true)];
    ReplayOne(users, Wrote(w, true));
    assert Replay(users, asWritten.trace)[address].nonce == Some(nonce2);
  }

  /**
   * `getOrCreateUser`: the stored document, or a new wallet document with
   * nonce `nonce`; `threw` when the read or the write fails.
   */
  method GetOrCreateUser(store: UserStore, ghost start: Users, trace: seq<Effect>, address: string, nonce: string,
                         readReachable: bool, writeReachable: bool)
    returns (threw: bool, user: Option<Account>, trace': seq<Effect>)
    requires store.users == Replay(start, trace)
    modifies store
    ensures store.users == Replay(start, trace')
    ensures !readReachable ==> threw && trace' == trace && store.users == old(store.users)
    ensures readReachable && address in old(store.users) ==>
              !threw && user == Some(old(store.users)[address]) && trace' == trace
    ensures readReachable && address !in old(store.users) ==>
              var w := Put(address, NewWalletAccount(address, nonce));
              trace' == trace + [Wrote(w, writeReachable)] && threw == !writeReachable
              && (!threw ==> user == Some(NewWalletAccount(address, nonce)))
  {
    trace' := trace;
    var ok, doc := store.Get(address, readReachable);
    if !ok {
      return true, None, trace';
    }
    if doc.Some? {
      return false, doc, trace';
    }
    var account := NewWalletAccount(address, nonce);
    ok, trace' := store.Record(start, trace, Put(address, account), writeReachable);
    threw := !ok;
    user := if ok then Some(account) else None;
  }

  /** The `catch` block against the store. */
  method CatchIn(store: UserStore, ghost start: Users, tried: seq<Effect>, message: Option<Message>, nonce2: string,
                 rotateReachable: bool)
    returns (status: int, reply: Reply, trace: seq<Effect>)
    requires store.users == Replay(start, tried)
    modifies store
    ensures SiweRun(trace, status, reply) == Catch(old(store.users), tried, message, nonce2, rotateReachable)
    ensures store.users == Replay(start, trace)
  {
    trace := tried;
    status, reply := 500, ErrorReply;
    if message.Some? && Truthy(message.value.address) {
      var ok;
      ok, trace := store.Record(start, tried, SetNonce(message.value.address.value, nonce2), rotateReachable);
    }
  }

  /** `POST` against the store. */
  method PostIn(store: UserStore, dbReady: bool, action: Option<string>, message: Option<Message>,
                verified: Option<string>, token: Option<string>, nonce1: string, nonce2: string,
                readReachable: bool, writeReachable: bool, rotateReachable: bool)
    returns (status: int, reply: Reply, trace: seq<Effect>)
    modifies store
    ensures SiweRun(trace, status, reply) == Post(old(store.users), dbReady, action, message, verified, token,
                                                  nonce1, nonce2, readReachable, writeReachable, rotateReachable)
    ensures store.users == Replay(old(store.users), trace)
  {
    if !dbReady {
      return 500, ErrorReply, [];
    }
    if action == Some("nonce") {
      status, reply, trace := NonceActionIn(store, message, nonce1, nonce2, readReachable, writeReachable, rotateReachable);
      return;
    }
    if action == Some("verify") {
      status, reply, trace := VerifyActionIn(store, message, verified, token, nonce1, nonce2, writeReachable, rotateReachable);
      return;
    }
    return 400, ErrorReply, [];
  }

  /** The `nonce` branch against the store. */
  method NonceActionIn(store: UserStore, message: Option<Message>, nonce1: string, nonce2: string,
                       readReachable: bool, writeReachable: bool, rotateReachable: bool)
    returns (status: int, reply: Reply, trace: seq<Effect>)
    modifies store
    ensures SiweRun(trace, status, reply)
              == NonceAction(old(store.users), message, nonce1, nonce2, readReachable, writeReachable, rotateReachable)
    ensures store.users == Replay(old(store.users), trace)
  {
    ghost var start := store.users;
    trace := [];
    if message.None? {
      return 500, ErrorReply, trace;
    }
    var address := message.value.address;
    if !Truthy(address) {
      status, reply, trace := CatchIn(store, start, trace, message, nonce2, rotateReachable);
      return;
    }
    var threw, user;
    threw, user, trace := GetOrCreateUser(store, start, trace, address.value, nonce1, readReachable, writeReachable);
    if threw {
      status, reply, trace := CatchIn(store, start, trace, message, nonce2, rotateReachable);
      return;
    }
    return 200, NonceReply(user.value.nonce), trace;
  }

  /** The `verify` branch against the store. */
  method VerifyActionIn(store: UserStore, message: Option<Message>, verified: Option<string>, token: Option<string>,
                        nonce1: string, nonce2: string, writeReachable: bool, rotateReachable: bool)
    returns (status: int, reply: Reply, trace: seq<Effect>)
    modifies store
    ensures SiweRun(trace, status, reply)
              == VerifyAction(old(store.users), message, verified, token, nonce1, nonce2, writeReachable, rotateReachable)
    ensures store.users == Replay(old(store.users), trace)
  {
    ghost var start := store.users;
    if verified.None? {
      trace := [Invoked(VerifySignature, false)];
      status, reply, trace := CatchIn(store, start, trace, message, nonce2, rotateReachable);
      return;
    }
    trace := [Invoked(VerifySignature, true)];
    var rotated;
    rotated, trace := store.Record(start, trace, SetNonce(verified.value, nonce1), writeReachable);
    ReplayTwo(start, Invoked(VerifySignature, true), Wrote(SetNonce(verified.value, nonce1), rotated));
    if !rotated {
      status, reply, trace := CatchIn(store, start, trace, message, nonce2, rotateReachable);
      return;
    }
    ReplaySnoc(start, trace, Invoked(CreateToken, token.Some?));
    trace := trace + [Invoked(CreateToken, token.Some?)];
    if token.None? {
      status, reply, trace := CatchIn(store, start, trace, message, nonce2, rotateReachable);
      return;
    }
    return 200, TokenReply(token.value), trace;
  }

  /**
   * The `nonce` action hands out the nonce stored for a known address and
   * writes nothing.
   */
  lemma NonceActionReturnsStoredNonce(users: Users, address: string, verified: Option<string>, token: Option<string>,
                                      nonce1: string, nonce2: string, writeReachable: bool, rotateReachable: bool)
    requires address != "" && address in users
    ensures var r := Post(users, true, Some("nonce"), Some(Message(Some(address))), verified, token,
                          nonce1, nonce2, true, writeReachable, rotateReachable);
            r == SiweRun([], 200, NonceReply(users[address].nonce))
  {
  }

  /**
   * On first contact the `nonce` action creates the wallet's document with
   * 5 credits, 5 free audits, no admin rights and the fresh nonce, and
   * hands out that nonce.
   */
  lemma NewWalletDefaults(users: Users, address: string, verified: Option<string>, token: Option<string>,
                          nonce1: string, nonce2: string, rotateReachable: bool)
    requires address != "" && address !in users
    ensures var r := Post(users, true, Some("nonce"), Some(Message(Some(address))), verified, token,
                          nonce1, nonce2, true, true, rotateReachable);
            var after := Replay(users, r.trace);
            r.status == 200 && r.reply == NonceReply(Some(nonce1))
            && after == users[address := Account(address, 5, 5, false, Some(nonce1))]
  {
    var r := Post(users, true, Some("nonce"), Some(Message(Some(address))), verified, token,
                  nonce1, nonce2, true, true, rotateReachable);
    ReplayOne(users, r.trace[0]);
  }

  /**
   * A token is issued only after the verified address's nonce has been
   * replaced: the reply carries a token exactly when the trace is the
   * verification, the accepted nonce write and the token call, in that order,
   * and the stored nonce is then the fresh one.
   */
  lemma NonceRotatedBeforeToken(users: Users, dbReady: bool, action: Option<string>, message: Option<Message>,
                                verified: Option<string>, token: Option<string>, nonce1: string, nonce2: string,
                                readReachable: bool, writeReachable: bool, rotateReachable: bool)
    ensures var r := Post(users, dbReady, action, message, verified, token, nonce1, nonce2,
                          readReachable, writeReachable, rotateReachable);
            r.reply.TokenReply? ==>
              action == Some("verify") && r.status == 200 && verified.Some? && token == Some(r.reply.token)
              && r.trace == [Invoked(VerifySignature, true), Wrote(SetNonce(verified.value, nonce1), true),
                             Invoked(CreateToken, true)]
              && var after := Replay(users, r.trace);
                 verified.value in after && after[verified.value].nonce == Some(nonce1)
  {
    var r := Post(users, dbReady, action, message, verified, token, nonce1, nonce2,
                  readReachable, writeReachable, rotateReachable);
    if r.reply.TokenReply? {
      ReplayThree(users, r.trace[0], r.trace[1], r.trace[2]);
    }
  }

  /**
   * The route never compares the stored nonce with the message: changing
   * the nonce stored for any address changes neither the status nor the
   * reply of a `verify` request.
   */
  lemma VerifyIgnoresStoredNonce(users: Users, someone: string, stored: Option<string>, message: Option<Message>,
                                 verified: Option<string>, token: Option<string>, nonce1: string, nonce2: string,
                                 readReachable: bool, writeReachable: bool, rotateReachable: bool)
    requires someone in users
    ensures var other := users[someone := users[someone].(nonce := stored)];
            var r1 := Post(users, true, Some("verify"), message, verified, token, nonce1, nonce2,
                           readReachable, writeReachable, rotateReachable);
            var r2 := Post(other, true, Some("verify"), message, verified, token, nonce1, nonce2,
                           readReachable, writeReachable, rotateReachable);
            r1.status == r2.status && r1.reply == r2.reply && |r1.trace| == |r2.trace|
  {
    var other := users[someone := users[someone].(nonce := stored)];
    assert other.Keys == users.Keys;
  }

  /**
   * Every failure of a `nonce` or `verify` request answers 500, and when the
   * message carries an address the last thing attempted is giving that
   * address the second fresh nonce.
   */
  lemma ErrorsRotateNonce(users: Users, action: Option<string>, message: Option<Message>,
                          verified: Option<string>, token: Option<string>, nonce1: string, nonce2: string,
                          readReachable: bool, writeReachable: bool, rotateReachable: bool)
    requires action == Some("nonce") || action == Some("verify")
    requires message.Some? && Truthy(message.value.address)
    ensures var r := Post(users, true, action, message, verified, token, nonce1, nonce2,
                          readReachable, writeReachable, rotateReachable);
            r.status != 200 ==>
              r.status == 500 && r.reply == ErrorReply && |r.trace| >= 1
              && r.trace[|r.trace| - 1].Wrote?
              && r.trace[|r.trace| - 1].write == SetNonce(message.value.address.value, nonce2)
  {
  }

  /** Any action other than `nonce` and `verify` answers 400 and touches nothing. */
  lemma UnknownActionRejected(users: Users, action: Option<string>, message: Option<Message>,
                              verified: Option<string>, token: Option<string>, nonce1: string, nonce2: string,
                              readReachable: bool, writeReachable: bool, rotateReachable: bool)
    requires action != Some("nonce") && action != Some("verify")
    ensures var r := Post(users, true, action, message, verified, token, nonce1, nonce2,
                          readReachable, writeReachable, rotateReachable);
            r == SiweRun([], 400, ErrorReply)
  {
  }
}
