/**
 * The charge shared by the dApp and cryptocurrency builder pages. Unlike the
 * relative increments of the other pages, these write an absolute balance
 * computed from the page's snapshot of the user document: `snapshot - cost`
 * before the AI call, and `snapshot` again in the `catch`. Nothing is read
 * back from the store in between, so the result depends on the snapshot, not
 * on what the store holds.
 */
module SnapshotMeter {
  import opened Ledger

  datatype Charged = Charged(trace: seq<Effect>, status: Status)

  /**
   * The `try`/`catch` around one metered call: the debit write, the `call`
   * (`answered` says whether it returned), the `after` calls made once it
   * returned, and in the `catch` the restoring write. The caller has already
   * checked that the snapshot covers `cost`.
   */
  function ChargeSnapshot(users: Users, uid: string, snapshot: int, cost: int, call: Call,
                          debitReachable: bool, answered: bool, after: seq<Effect>,
                          restoreReachable: bool): Charged
  {
    var debit := SetCredits(uid, snapshot - cost);
    var debited := Accepts(users, debit, debitReachable);
    if debited && answered then
      Charged([Wrote(debit, true), Invoked(call, true)] + after, Completed)
    else
      var tried := [Wrote(debit, debited)] + (if debited then [Invoked(call, false)] else []);
      var restore := SetCredits(uid, snapshot);
      if Accepts(users, restore, restoreReachable) then Charged(tried + [Wrote(restore, true)], Failed)
      else Charged(tried + [Wrote(restore, false)], RefundThrew)
  }

  /** `ChargeSnapshot` against the store. */
  method Charge(store: UserStore, uid: string, snapshot: int, cost: int, call: Call,
                debitReachable: bool, answered: bool, after: seq<Effect>, restoreReachable: bool)
    returns (status: Status, trace: seq<Effect>)
    requires CallsOnly(after)
    modifies store
    ensures var c := ChargeSnapshot(old(store.users), uid, snapshot, cost, call,
                                    debitReachable, answered, after, restoreReachable);
            trace == c.trace && status == c.status
    ensures store.users == Replay(old(store.users), trace)
  {
    ghost var users := store.users;
    var debited, restored;
    debited, trace := store.Record(users, [], SetCredits(uid, snapshot - cost), debitReachable);
    if debited {
      ReplaySnoc(users, trace, Invoked(call, answered));
      trace := trace + [Invoked(call, answered)];
      if answered {
        ReplayAppend(users, trace, after);
        ReplayCallsOnly(store.users, after);
        trace := trace + after;
        status := Completed;
        return;
      }
    }
    restored, trace := store.Record(users, trace, SetCredits(uid, snapshot), restoreReachable);
    status := if restored then Failed else RefundThrew;
  }

  /** The three ways a charge ends. */
  lemma ChargeStatus(users: Users, uid: string, snapshot: int, cost: int, call: Call,
                     debitReachable: bool, answered: bool, after: seq<Effect>, restoreReachable: bool)
    ensures var c := ChargeSnapshot(users, uid, snapshot, cost, call,
                                    debitReachable, answered, after, restoreReachable);
            (c.status == Completed <==> Accepts(users, SetCredits(uid, snapshot - cost), debitReachable) && answered)
            && (c.status == Failed <==> !(Accepts(users, SetCredits(uid, snapshot - cost), debitReachable) && answered)
                                        && Accepts(users, SetCredits(uid, snapshot), restoreReachable))
            && c.status in {Completed, Failed, RefundThrew}
  {
  }

  /**
   * A completed charge leaves the balance at `snapshot - cost`, whatever the
   * store held: with a stale snapshot, credits granted or spent since it was
   * taken are overwritten.
   */
  lemma CompletedSetsSnapshotMinusCost(users: Users, uid: string, snapshot: int, cost: int, call: Call,
                                       debitReachable: bool, answered: bool, after: seq<Effect>,
                                       restoreReachable: bool)
    requires uid in users && CallsOnly(after)
    ensures var c := ChargeSnapshot(users, uid, snapshot, cost, call,
                                    debitReachable, answered, after, restoreReachable);
            c.status == Completed ==>
              Replay(users, c.trace) == users[uid := users[uid].(credits := snapshot - cost)]
  {
    var c := ChargeSnapshot(users, uid, snapshot, cost, call, debitReachable, answered, after, restoreReachable);
    if c.status == Completed {
      var head := [Wrote(SetCredits(uid, snapshot - cost), true), Invoked(call, true)];
      assert c.trace == head + after;
      ReplayAppend(users, head, after);
      ReplayTwo(users, head[0], head[1]);
      ReplayCallsOnly(Replay(users, head), after);
    }
  }

  /**
   * A failed charge whose restore lands leaves the balance at `snapshot`,
   * whether or not the debit had been written, and whatever the store held.
   */
  lemma FailedSetsSnapshot(users: Users, uid: string, snapshot: int, cost: int, call: Call,
                           debitReachable: bool, answered: bool, after: seq<Effect>, restoreReachable: bool)
    requires uid in users
    ensures var c := ChargeSnapshot(users, uid, snapshot, cost, call,
                                    debitReachable, answered, after, restoreReachable);
            c.status == Failed ==> Replay(users, c.trace) == users[uid := users[uid].(credits := snapshot)]
  {
    var c := ChargeSnapshot(users, uid, snapshot, cost, call, debitReachable, answered, after, restoreReachable);
    if c.status == Failed {
      var debit := SetCredits(uid, snapshot - cost);
      var restore := Wrote(SetCredits(uid, snapshot), true);
      var reset := users[uid := users[uid].(credits := snapshot)];
      var debited := Accepts(users, debit, debitReachable);
      SnapshotRestored(reset, uid, snapshot, debit, debited);
      if debited {
        assert c.trace == [Wrote(debit, true), Invoked(call, false), restore];
        ReplayThree(users, c.trace[0], c.trace[1], c.trace[2]);
        ReplayTwo(reset, Wrote(debit, true), restore);
      } else {
        assert c.trace == [Wrote(debit, false), restore];
        ReplayTwo(users, c.trace[0], c.trace[1]);
        ReplayTwo(reset, Wrote(debit, false), restore);
      }
    }
  }

  /** With a snapshot that matches the store, a failed charge is net zero. */
  lemma FreshFailureIsNetZero(users: Users, uid: string, cost: int, call: Call,
                              debitReachable: bool, answered: bool, after: seq<Effect>)
    requires uid in users
    ensures var c := ChargeSnapshot(users, uid, users[uid].credits, cost, call,
                                    debitReachable, answered, after, true);
            c.status != Completed ==> c.status == Failed && Replay(users, c.trace) == users
  {
    var c := ChargeSnapshot(users, uid, users[uid].credits, cost, call, debitReachable, answered, after, true);
    FailedSetsSnapshot(users, uid, users[uid].credits, cost, call, debitReachable, answered, after, true);
    if c.status != Completed {
      assert users[uid := users[uid].(credits := users[uid].credits)] == users;
    }
  }

  /**
   * When the restore itself throws, the balance is either untouched (the
   * debit never landed) or left at `snapshot - cost`.
   */
  lemma RestoreThrewKeepsDebit(users: Users, uid: string, snapshot: int, cost: int, call: Call,
                               debitReachable: bool, answered: bool, after: seq<Effect>, restoreReachable: bool)
    requires uid in users
    ensures var c := ChargeSnapshot(users, uid, snapshot, cost, call,
                                    debitReachable, answered, after, restoreReachable);
            var debited := Accepts(users, SetCredits(uid, snapshot - cost), debitReachable);
            c.status == RefundThrew ==>
              Replay(users, c.trace) == if debited then users[uid := users[uid].(credits := snapshot - cost)] else users
  {
    var c := ChargeSnapshot(users, uid, snapshot, cost, call, debitReachable, answered, after, restoreReachable);
    if c.status == RefundThrew {
      var t := c.trace;
      if |t| == 3 {
        ReplayThree(users, t[0], t[1], t[2]);
      } else {
        ReplayTwo(users, t[0], t[1]);
      }
    }
  }

  /**
   * Calls made after the metered call returned (saving the project) do not
   * change the outcome: the balance and the status are the same whatever
   * those calls do.
   */
  lemma AfterCallsIsolated(users: Users, uid: string, snapshot: int, cost: int, call: Call,
                           debitReachable: bool, answered: bool, after1: seq<Effect>, after2: seq<Effect>,
                           restoreReachable: bool)
    requires uid in users && CallsOnly(after1) && CallsOnly(after2)
    ensures var c1 := ChargeSnapshot(users, uid, snapshot, cost, call,
                                     debitReachable, answered, after1, restoreReachable);
            var c2 := ChargeSnapshot(users, uid, snapshot, cost, call,
                                     debitReachable, answered, after2, restoreReachable);
            c1.status == c2.status && Replay(users, c1.trace) == Replay(users, c2.trace)
  {
    CompletedSetsSnapshotMinusCost(users, uid, snapshot, cost, call, debitReachable, answered, after1, restoreReachable);
    CompletedSetsSnapshotMinusCost(users, uid, snapshot, cost, call, debitReachable, answered, after2, restoreReachable);
  }
}
