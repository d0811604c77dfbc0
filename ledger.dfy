/**
 * The `users` collection of the document store: one document per account,
 * holding the two counters the product meters (`credits` and `freeAudits`),
 * the `isAdmin` flag and, for wallet accounts, the sign-in `nonce`.
 *
 * Every handler of the model reports what it did as a trace of effects: the
 * single-document writes it attempted (and whether the store accepted each)
 * and the external calls it made (and whether each returned). `Replay` gives
 * the collection after a trace, so properties of a handler are properties of
 * its trace.
 */
module Ledger {
  import opened Wrappers

  datatype Account = Account(
    id: string,
    credits: int,
    freeAudits: int,
    isAdmin: bool,
    nonce: Option<string>)

  type Users = map<string, Account>

  datatype Counter = Credits | FreeAudits

  /** A write to one user document. */
  datatype Write =
    | Increment(uid: string, counter: Counter, delta: int)  // update({counter: increment(delta)})
    | SetCredits(uid: string, value: int)                   // update({credits: value})
    | SetNonce(uid: string, nonce: string)                  // update({nonce: value})
    | Put(uid: string, account: Account)                    // set(record)

  /** The external calls a handler awaits besides the store. */
  datatype Call = Generate | Upload | SaveProject | VerifySignature | CreateToken

  datatype Effect =
    | Wrote(write: Write, ok: bool)
    | Invoked(call: Call, ok: bool)

  /** How a handler ended. */
  datatype Status =
    | Ignored              // the guard returned before anything was checked
    | LoginRequired        // no signed-in user or no loaded user document
    | InsufficientCredits  // the balance check rejected the action
    | Completed            // the external work returned and the debit stands
    | Failed               // the external work threw and the compensation was written
    | RefundThrew          // the compensating write itself threw and the error propagated

  function Count(a: Account, c: Counter): int
  {
    match c
    case Credits => a.credits
    case FreeAudits => a.freeAudits
  }

  /** The account after `increment(delta)` on counter `c`. */
  function Bump(a: Account, c: Counter, delta: int): (b: Account)
    ensures Count(b, c) == Count(a, c) + delta
    ensures forall d: Counter :: d != c ==> Count(b, d) == Count(a, d)
    ensures b.id == a.id && b.isAdmin == a.isAdmin && b.nonce == a.nonce
  {
    match c
    case Credits => a.(credits := a.credits + delta)
    case FreeAudits => a.(freeAudits := a.freeAudits + delta)
  }

  /** An `update` needs the document to exist; a `set` creates it. */
  predicate Applicable(users: Users, w: Write)
  {
    w.Put? || w.uid in users
  }

  /** Whether the store accepts the write: it must be reachable and the write applicable. */
  predicate Accepts(users: Users, w: Write, reachable: bool)
  {
    reachable && Applicable(users, w)
  }

  function Apply(users: Users, w: Write): (r: Users)
    requires Applicable(users, w)
    ensures r.Keys == users.Keys + {w.uid}
    ensures w.uid in r
    ensures forall u :: u in users && u != w.uid ==> r[u] == users[u]
  {
    match w
    case Increment(uid, c, d) => users[uid := Bump(users[uid], c, d)]
    case SetCredits(uid, v) => users[uid := users[uid].(credits := v)]
    case SetNonce(uid, n) => users[uid := users[uid].(nonce := Some(n))]
    case Put(uid, a) => users[uid := a]
  }

  /** The collection after one effect: only accepted writes change it. */
  function ApplyEffect(users: Users, e: Effect): Users
  {
    if e.Wrote? && e.ok && Applicable(users, e.write) then Apply(users, e.write) else users
  }

  /** The collection after a whole trace, effect by effect. */
  function Replay(users: Users, trace: seq<Effect>): Users
    decreases |trace|
  {
    if trace == [] then users else Replay(ApplyEffect(users, trace[0]), trace[1..])
  }

  /** No effect of the trace writes to document `uid`. */
  predicate Untouched(trace: seq<Effect>, uid: string)
  {
    forall i :: 0 <= i < |trace| && trace[i].Wrote? ==> trace[i].write.uid != uid
  }

  /** The trace only calls out: it writes nothing. */
  predicate CallsOnly(trace: seq<Effect>)
  {
    forall i :: 0 <= i < |trace| ==> trace[i].Invoked?
  }

  /** A trace of calls alone leaves the collection as it was. */
  lemma {:induction false} ReplayCallsOnly(users: Users, trace: seq<Effect>)
    requires CallsOnly(trace)
    ensures Replay(users, trace) == users
    decreases |trace|
  {
    if trace != [] {
      assert trace[0].Invoked?;
      assert CallsOnly(trace[1..]) by {
        forall i | 0 <= i < |trace[1..]|
          ensures trace[1..][i].Invoked?
        {
          assert trace[1..][i] == trace[i + 1];
        }
      }
      ReplayCallsOnly(users, trace[1..]);
    }
  }

  lemma {:induction false} ReplaySnoc(users: Users, trace: seq<Effect>, e: Effect)
    ensures Replay(users, trace + [e]) == ApplyEffect(Replay(users, trace), e)
    decreases |trace|
  {
    if trace == [] {
      assert [] + [e] == [e];
    } else {
      assert (trace + [e])[1..] == trace[1..] + [e];
      ReplaySnoc(ApplyEffect(users, trace[0]), trace[1..], e);
    }
  }

  /** Running two traces one after the other is running their concatenation. */
  lemma {:induction false} ReplayAppend(users: Users, t1: seq<Effect>, t2: seq<Effect>)
    ensures Replay(users, t1 + t2) == Replay(Replay(users, t1), t2)
    decreases |t1|
  {
    if t1 == [] {
      assert [] + t2 == t2;
    } else {
      assert (t1 + t2)[1..] == t1[1..] + t2;
      ReplayAppend(ApplyEffect(users, t1[0]), t1[1..], t2);
    }
  }

  /** Nothing else changes: a document no effect writes to keeps its value (or stays absent). */
  lemma {:induction false} ReplayLeavesOthers(users: Users, trace: seq<Effect>, uid: string)
    requires Untouched(trace, uid)
    ensures uid in Replay(users, trace) <==> uid in users
    ensures uid in users ==> Replay(users, trace)[uid] == users[uid]
    decreases |trace|
  {
    if trace != [] {
      assert Untouched(trace[1..], uid) by {
        forall i | 0 <= i < |trace[1..]| && trace[1..][i].Wrote?
          ensures trace[1..][i].write.uid != uid
        {
          assert trace[1..][i] == trace[i + 1];
        }
      }
      ReplayLeavesOthers(ApplyEffect(users, trace[0]), trace[1..], uid);
    }
  }

  /** Writes never remove a document, so an `update` that applied once stays applicable. */
  lemma {:induction false} ReplayKeepsDocuments(users: Users, trace: seq<Effect>)
    ensures users.Keys <= Replay(users, trace).Keys
    decreases |trace|
  {
    if trace != [] {
      ReplayKeepsDocuments(ApplyEffect(users, trace[0]), trace[1..]);
    }
  }

  lemma ReplayOne(users: Users, a: Effect)
    ensures Replay(users, [a]) == ApplyEffect(users, a)
  {
    assert [a][1..] == [];
  }

  lemma ReplayTwo(users: Users, a: Effect, b: Effect)
    ensures Replay(users, [a, b]) == ApplyEffect(ApplyEffect(users, a), b)
  {
    assert [a, b][1..] == [b];
    ReplayOne(ApplyEffect(users, a), b);
  }

  lemma ReplayThree(users: Users, a: Effect, b: Effect, c: Effect)
    ensures Replay(users, [a, b, c]) == ApplyEffect(ApplyEffect(ApplyEffect(users, a), b), c)
  {
    assert [a, b, c][1..] == [b, c];
    ReplayTwo(ApplyEffect(users, a), b, c);
  }

  lemma ReplayFour(users: Users, a: Effect, b: Effect, c: Effect, d: Effect)
    ensures Replay(users, [a, b, c, d]) == ApplyEffect(ApplyEffect(ApplyEffect(ApplyEffect(users, a), b), c), d)
  {
    assert [a, b, c, d][1..] == [b, c, d];
    ReplayThree(ApplyEffect(users, a), b, c, d);
  }

  /** A relative refund of the amount a relative debit took restores the document exactly. */
  lemma IncrementUndone(users: Users, uid: string, c: Counter, amount: int)
    requires uid in users
    ensures Replay(users, [Wrote(Increment(uid, c, -amount), true), Wrote(Increment(uid, c, amount), true)]) == users
  {
    var t := [Wrote(Increment(uid, c, -amount), true), Wrote(Increment(uid, c, amount), true)];
    var mid := Apply(users, Increment(uid, c, -amount));
    assert Replay(users, t) == Replay(mid, t[1..]);
    assert Replay(mid, t[1..]) == Apply(mid, Increment(uid, c, amount));
    assert Bump(Bump(users[uid], c, -amount), c, amount) == users[uid];
  }

  /** Adding `m` credits and then `c` more is adding `m + c` in one step. */
  lemma CreditsAddUp(users: Users, uid: string, m: int, c: int)
    requires uid in users
    ensures var once := users[uid := users[uid].(credits := users[uid].credits + m)];
            once[uid := once[uid].(credits := once[uid].credits + c)]
              == users[uid := users[uid].(credits := users[uid].credits + (m + c))]
  {
  }

  /** `k` grants of `c` are `k - 1` grants and one more. */
  lemma GrantsAddUp(k: nat, c: int)
    requires k > 0
    ensures (k - 1) * c + c == k * c
  {
  }

  /**
   * Writing back the snapshot restores the document exactly when the snapshot
   * is the stored value, whether or not the write that preceded it was accepted.
   */
  lemma SnapshotRestored(users: Users, uid: string, snapshot: int, first: Write, firstOk: bool)
    requires uid in users && users[uid].credits == snapshot
    requires first.uid == uid && (first.SetCredits? || (first.Increment? && first.counter == Credits))
    ensures Replay(users, [Wrote(first, firstOk), Wrote(SetCredits(uid, snapshot), true)]) == users
  {
    var t := [Wrote(first, firstOk), Wrote(SetCredits(uid, snapshot), true)];
    var mid := ApplyEffect(users, t[0]);
    assert Replay(users, t) == Replay(mid, t[1..]);
    assert Replay(mid, t[1..]) == Apply(mid, SetCredits(uid, snapshot));
    assert mid == users || mid == users[uid := users[uid].(credits := mid[uid].credits)];
  }

  /**
   * The document store: the `users` collection, changed in place one
   * document write at a time.
   */
  class UserStore {
    var users: Users

    constructor (initial: Users)
      ensures users == initial
    {
      users := initial;
    }

    /** `getDoc`: the document, `None` if it does not exist; fails when the store is unreachable. */
    method Get(uid: string, reachable: bool) returns (ok: bool, doc: Option<Account>)
      ensures ok == reachable
      ensures ok ==> (doc.Some? <==> uid in users)
      ensures ok && uid in users ==> doc == Some(users[uid])
    {
      ok := reachable;
      doc := if reachable && uid in users then Some(users[uid]) else None;
    }

    /** `update` / `set` on one document: it throws (ok is false) and changes nothing when rejected. */
    method Update(w: Write, reachable: bool) returns (ok: bool)
      modifies this
      ensures ok == Accepts(old(users), w, reachable)
      ensures users == if ok then Apply(old(users), w) else old(users)
    {
      ok := Accepts(users, w, reachable);
      if ok {
        users := Apply(users, w);
      }
    }

    /** Performs the write and records it; the store after the trace is `Replay` of the trace. */
    method Record(ghost start: Users, trace: seq<Effect>, w: Write, reachable: bool) returns (ok: bool, trace': seq<Effect>)
      requires users == Replay(start, trace)
      modifies this
      ensures ok == Accepts(old(users), w, reachable)
      ensures trace' == trace + [Wrote(w, ok)]
      ensures users == Replay(start, trace')
    {
      ok := Update(w, reachable);
      trace' := trace + [Wrote(w, ok)];
      ReplaySnoc(start, trace, Wrote(w, ok));
    }
  }
}
