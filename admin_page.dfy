/**
 * The admin page: a dialog that adds credits to one user, the free-audit
 * total shown over all users, and the guard that decides whether the page
 * renders at all. The dialog itself does no admin check; only the guard
 * around the page does.
 */
module AdminPage {
  import opened Wrappers
  import opened Ledger
  import opened JsText

  // ---------------------------------------------------------------------------
  // `parseInt(value, 10) || 0`

  /** The longest prefix of `s` made of digits. */
  function DigitPrefix(s: string): (d: string)
    ensures |d| <= |s| && d == s[..|d|] && AllDigits(d)
    ensures |d| == |s| || !IsDigit(s[|d|])
    decreases |s|
  {
    if s != [] && IsDigit(s[0]) then [s[0]] + DigitPrefix(s[1..]) else []
  }

  /**
   * `parseInt(s, 10)`: skip white space, take an optional sign, then the
   * longest run of digits; `None` (NaN) when there are no digits.
   */
  function ParseInt(s: string): Option<int>
  {
    ParseSigned(TrimStart(s))
  }

  /** `parseInt` once the white space is gone. */
  function ParseSigned(t: string): Option<int>
  {
    var negative := t != [] && t[0] == '-';
    var rest := if t != [] && (t[0] == '-' || t[0] == '+') then t[1..] else t;
    var digits := DigitPrefix(rest);
    if digits == [] then None else Some(Signed(negative, NumeralValue(digits)))
  }

  /** A value read after an optional minus sign. */
  function Signed(negative: bool, v: nat): int
  {
    if negative then -(v as int) else v
  }

  /** What the amount field holds after `onChange`: NaN (and zero) become 0. */
  function ParseAmount(s: string): int
  {
    match ParseInt(s)
    case None => 0
    case Some(v) => v
  }

  /** Digits followed by anything that is not a digit: the digits are the prefix. */
  lemma {:induction false} DigitPrefixOfNumeral(d: string, tail: string)
    requires AllDigits(d) && (tail == [] || !IsDigit(tail[0]))
    ensures DigitPrefix(d + tail) == d
    decreases |d|
  {
    if d != [] {
      assert (d + tail)[1..] == d[1..] + tail;
      DigitPrefixOfNumeral(d[1..], tail);
    } else {
      assert d + tail == tail;
    }
  }

  /** Without a leading sign, `parseInt` reads the digits at the front. */
  lemma ParseNoSign(t: string)
    requires t == [] || (t[0] != '-' && t[0] != '+')
    ensures var digits := DigitPrefix(t);
            ParseSigned(t) == if digits == [] then None else Some(Signed(false, NumeralValue(digits)))
  {
  }

  /** Without a sign, the leading digits are the number. */
  lemma ParseUnsigned(d: string, tail: string)
    requires d != [] && AllDigits(d) && (tail == [] || !IsDigit(tail[0]))
    ensures ParseSigned(d + tail) == Some(Signed(false, NumeralValue(d)))
  {
    assert (d + tail)[0] == d[0];
    DigitPrefixOfNumeral(d, tail);
    ParseNoSign(d + tail);
  }

  /** After a leading sign, `parseInt` reads the digits that follow it. */
  lemma ParseAfterSign(c: char, rest: string)
    requires c == '-' || c == '+'
    ensures var digits := DigitPrefix(rest);
            ParseSigned([c] + rest) == if digits == [] then None else Some(Signed(c == '-', NumeralValue(digits)))
  {
    assert ([c] + rest)[0] == c && ([c] + rest)[1..] == rest;
  }

  /** A sign, then digits followed by a non-digit: the digits' value, negated after `-`. */
  lemma SignThenDigits(c: char, d: string, tail: string)
    requires c == '-' || c == '+'
    requires d != [] && AllDigits(d) && (tail == [] || !IsDigit(tail[0]))
    ensures ParseSigned([c] + d + tail) == Some(Signed(c == '-', NumeralValue(d)))
  {
    assert [c] + d + tail == [c] + (d + tail);
    DigitPrefixOfNumeral(d, tail);
    ParseAfterSign(c, d + tail);
  }

  /** Digits followed by a non-digit, after any sign, read as the digits' value. */
  lemma SignedDigits(d: string, tail: string, sign: string)
    requires d != [] && AllDigits(d) && (tail == [] || !IsDigit(tail[0]))
    requires sign == "" || sign == "-" || sign == "+"
    ensures ParseSigned(sign + d + tail) == Some(Signed(sign == "-", NumeralValue(d)))
  {
    if sign == "" {
      assert sign + d + tail == d + tail;
      ParseUnsigned(d, tail);
    } else {
      assert sign == [sign[0]];
      SignThenDigits(sign[0], d, tail);
    }
  }

  /** A numeral followed by a non-digit, after any sign, reads as the numeral's value. */
  lemma SignedNumeral(n: nat, tail: string, sign: string)
    requires tail == [] || !IsDigit(tail[0])
    requires sign in {"", "-", "+"}
    ensures ParseSigned(sign + Numeral(n) + tail) == Some(Signed(sign == "-", n))
  {
    NumeralRoundTrip(n);
    SignedDigits(Numeral(n), tail, sign);
  }

  /**
   * A typed number reads back as itself, with or without a sign, and
   * whatever follows its digits is ignored.
   */
  lemma ParseNumeral(n: nat, tail: string, sign: string)
    requires tail == [] || !IsDigit(tail[0])
    requires sign in {"", "-", "+"}
    ensures ParseAmount(sign + Numeral(n) + tail) == if sign == "-" then -(n as int) else n
  {
    var t := sign + Numeral(n) + tail;
    NumeralRoundTrip(n);
    var first := if sign == "" then Numeral(n)[0] else sign[0];
    assert t[0] == first && !IsWhiteSpace(first);
    assert TrimStart(t) == t;
    SignedNumeral(n, tail, sign);
  }

  /** White space in front is skipped whatever follows it. */
  lemma {:induction false} SkipLeadingWhiteSpace(w: string, s: string)
    requires Blank(w)
    ensures TrimStart(w + s) == TrimStart(s)
    decreases |w|
  {
    if w == [] {
      assert w + s == s;
    } else {
      assert (w + s)[1..] == w[1..] + s;
      assert (w + s)[0] == w[0];
      SkipLeadingWhiteSpace(w[1..], s);
    }
  }

  /** Leading white space does not change the amount. */
  lemma ParseSkipsWhiteSpace(w: string, s: string)
    requires Blank(w)
    ensures ParseAmount(w + s) == ParseAmount(s)
  {
    SkipLeadingWhiteSpace(w, s);
  }

  /** Input without a single digit becomes 0, which the dialog then refuses. */
  lemma NoDigitsIsZero(s: string)
    requires forall i :: 0 <= i < |s| ==> !IsDigit(s[i])
    ensures ParseAmount(s) == 0
  {
    var t := TrimStart(s);
    var rest := if t != [] && (t[0] == '-' || t[0] == '+') then t[1..] else t;
    if rest != [] {
      assert rest[0] == s[|s| - |rest|];
    }
  }

  // ---------------------------------------------------------------------------
  // the add-credits dialog

  datatype Dialog = Dialog(open: bool, amount: int, isUpdating: bool)

  datatype Added = Added(users: Users, dialog: Dialog)

  /**
   * What `handleAddCredits` does for user `userId`; `reachable` says whether
   * the store takes the increment.
   */
  function AddCredits(users: Users, dialog: Dialog, userId: string, reachable: bool): Added
  {
    if dialog.amount <= 0 then Added(users, dialog)
    else
      var w := Increment(userId, Credits, dialog.amount);
      if Accepts(users, w, reachable) then Added(Apply(users, w), Dialog(false, 0, false))
      else Added(users, dialog.(isUpdating := false))
  }

  class AddCreditsDialog {
    const userId: string
    var open: bool
    var amount: int
    var isUpdating: bool

    constructor (userId: string)
      ensures this.userId == userId && !open && amount == 0 && !isUpdating
    {
      this.userId := userId;
      open, amount, isUpdating := false, 0, false;
    }

    /** The amount field's `onChange`. */
    method OnAmountChange(value: string)
      modifies this
      ensures amount == ParseAmount(value) && open == old(open) && isUpdating == old(isUpdating)
    {
      amount := ParseAmount(value);
    }

    method HandleAddCredits(store: UserStore, reachable: bool)
      modifies this, store
      ensures var r := AddCredits(old(store.users), Dialog(old(open), old(amount), old(isUpdating)), userId, reachable);
              store.users == r.users && Dialog(open, amount, isUpdating) == r.dialog
    {
      if amount <= 0 {
        return;
      }
      isUpdating := true;
      var ok := store.Update(Increment(userId, Credits, amount), reachable);
      if ok {
        open := false;
        amount := 0;
      }
      isUpdating := false;
    }
  }

  /**
   * The dialog writes only for a positive amount; the write adds exactly that
   * amount to the user's credits and nothing else. A write that lands closes
   * the dialog and clears the amount; one that fails leaves both as they were.
   * Either way `isUpdating` ends false.
   */
  lemma AddCreditsOutcome(users: Users, dialog: Dialog, userId: string, reachable: bool)
    ensures var r := AddCredits(users, dialog, userId, reachable);
            var landed := dialog.amount > 0 && reachable && userId in users;
            (landed ==> r.users == users[userId := users[userId].(credits := users[userId].credits + dialog.amount)]
                        && r.dialog == Dialog(false, 0, false))
            && (!landed ==> r.users == users && r.dialog.open == dialog.open && r.dialog.amount == dialog.amount)
            && (dialog.amount > 0 ==> !r.dialog.isUpdating)
            && (dialog.amount <= 0 ==> r.dialog == dialog)
  {
  }

  /** Typing something with no digits and confirming writes nothing. */
  lemma NonNumericInputRejected(users: Users, dialog: Dialog, userId: string, reachable: bool, typed: string)
    requires forall i :: 0 <= i < |typed| ==> !IsDigit(typed[i])
    ensures AddCredits(users, dialog.(amount := ParseAmount(typed)), userId, reachable).users == users
  {
    NoDigitsIsZero(typed);
  }

  // ---------------------------------------------------------------------------
  // the free-audit total

  /** `user.freeAudits || 0`. */
  function AuditsOf(freeAudits: Option<int>): int
  {
    if freeAudits.None? then 0 else freeAudits.value
  }

  /** The `reduce` over the listed users, from the first to the last. */
  function SumFreeAudits(freeAudits: seq<Option<int>>): int
    decreases |freeAudits|
  {
    if freeAudits == [] then 0
    else SumFreeAudits(freeAudits[..|freeAudits| - 1]) + AuditsOf(freeAudits[|freeAudits| - 1])
  }

  /** `totalFreeAudits`: 0 while the user list is absent. */
  function TotalFreeAudits(users: Option<seq<Option<int>>>): int
  {
    if users.None? then 0 else SumFreeAudits(users.value)
  }

  /** The total of two lists run together is the sum of their totals. */
  lemma {:induction false} SumFreeAuditsAppend(a: seq<Option<int>>, b: seq<Option<int>>)
    ensures SumFreeAudits(a + b) == SumFreeAudits(a) + SumFreeAudits(b)
    decreases |b|
  {
    if b == [] {
      assert a + b == a;
    } else {
      assert (a + b)[..|a + b| - 1] == a + b[..|b| - 1];
      SumFreeAuditsAppend(a, b[..|b| - 1]);
    }
  }

  /** With no negative counter stored, the total lies between 0 and `m` per user. */
  lemma {:induction false} SumFreeAuditsBounds(freeAudits: seq<Option<int>>, m: int)
    requires forall i :: 0 <= i < |freeAudits| && freeAudits[i].Some? ==> 0 <= freeAudits[i].value <= m
    ensures 0 <= SumFreeAudits(freeAudits) <= |freeAudits| * (if m < 0 then 0 else m)
    decreases |freeAudits|
  {
    if freeAudits != [] {
      var init := freeAudits[..|freeAudits| - 1];
      var cap := if m < 0 then 0 else m;
      SumFreeAuditsBounds(init, m);
      assert 0 <= AuditsOf(freeAudits[|freeAudits| - 1]) <= cap;
      assert |freeAudits| * cap == |init| * cap + cap;
    }
  }

  /** Users without the field count as 0: dropping them does not change the total. */
  lemma MissingCountsZero(a: seq<Option<int>>, b: seq<Option<int>>)
    ensures SumFreeAudits(a + [None] + b) == SumFreeAudits(a + b)
  {
    SumFreeAuditsAppend(a + [None], b);
    SumFreeAuditsAppend(a, b);
  }

  /** The dashboard's total: 0 while the list is absent, otherwise the sum over the
      listed users, bounded by the list's length times the largest grant. */
  lemma TotalFreeAuditsBounds(users: Option<seq<Option<int>>>, m: int)
    requires users.Some? ==> forall i :: 0 <= i < |users.value| && users.value[i].Some? ==> 0 <= users.value[i].value <= m
    ensures users.None? ==> TotalFreeAudits(users) == 0
    ensures users.Some? ==> 0 <= TotalFreeAudits(users) <= |users.value| * (if m < 0 then 0 else m)
  {
    if users.Some? {
      SumFreeAuditsBounds(users.value, m);
    }
  }

  // ---------------------------------------------------------------------------
  // the admin guard

  datatype Route = LoginRoute | DashboardRoute

  /** What `AdminGuard` renders: its children only once a loaded user document says admin. */
  predicate GuardRenders(isUserLoading: bool, isUserDataLoading: bool, userData: Option<Account>)
  {
    !(isUserLoading || isUserDataLoading || userData.None? || !userData.value.isAdmin)
  }

  /** Where the guard's effect sends the browser, if anywhere. */
  function GuardRedirect(isUserLoading: bool, isUserDataLoading: bool, signedIn: bool,
                         userData: Option<Account>): Option<Route>
  {
    if isUserLoading || isUserDataLoading then None
    else if !signedIn then Some(LoginRoute)
    else if userData.Some? && !userData.value.isAdmin then Some(DashboardRoute)
    else None
  }

  /**
   * The guard renders the page exactly for a loaded admin, and then does not
   * redirect; a signed-out visitor is sent to login and a signed-in
   * non-admin to the dashboard. A signed-in user with no user document is
   * neither let in nor redirected: the spinner stays.
   */
  lemma GuardDecisions(isUserLoading: bool, isUserDataLoading: bool, signedIn: bool, userData: Option<Account>)
    requires !signedIn ==> userData.None?
    ensures GuardRenders(isUserLoading, isUserDataLoading, userData) <==>
              !isUserLoading && !isUserDataLoading && userData.Some? && userData.value.isAdmin
    ensures GuardRenders(isUserLoading, isUserDataLoading, userData) ==>
              GuardRedirect(isUserLoading, isUserDataLoading, signedIn, userData) == None
    ensures var loaded := !isUserLoading && !isUserDataLoading;
            (loaded && !signedIn ==> GuardRedirect(isUserLoading, isUserDataLoading, signedIn, userData) == Some(LoginRoute))
            && (loaded && signedIn && userData.Some? && !userData.value.isAdmin ==>
                  GuardRedirect(isUserLoading, isUserDataLoading, signedIn, userData) == Some(DashboardRoute))
            && (loaded && signedIn && userData.None? ==>
                  !GuardRenders(isUserLoading, isUserDataLoading, userData)
                  && GuardRedirect(isUserLoading, isUserDataLoading, signedIn, userData) == None)
  {
  }
}
