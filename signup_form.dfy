/**
 * The sign-up form. Signing up with Google or GitHub creates the user
 * document once, with 8 free credits; signing up with e-mail and password
 * only starts the authentication sign-up and writes no document.
 */
module SignupForm {
  import opened Wrappers
  import opened Ledger

  const OAuthCredits := 8

  /** The document `createUserDocument` writes for a new user. */
  function NewOAuthAccount(uid: string): (a: Account)
    ensures a.id == uid && a.credits == 8 && a.freeAudits == 0 && !a.isAdmin && a.nonce.None?
  {
    Account(uid, OAuthCredits, 0, false, None)
  }

  /** The collection once `uid` has a document: a new one only when it had none. */
  function CreateOnce(users: Users, uid: string): Users
  {
    if uid in users then users else users[uid := NewOAuthAccount(uid)]
  }

  datatype Created = Created(users: Users, threw: bool)

  /**
   * What `createUserDocument` does: read the document, stop if it exists,
   * otherwise write the defaults. The flags say whether the store answers
   * the read and takes the write; when either fails the call throws.
   */
  function CreateUserDocument(users: Users, uid: string, readReachable: bool, writeReachable: bool): Created
  {
    if !readReachable then Created(users, true)
    else if uid in users then Created(users, false)
    else if writeReachable then Created(users[uid := NewOAuthAccount(uid)], false)
    else Created(users, true)
  }

  /** `createUserDocument` against the store. */
  method CreateUserDocumentIn(store: UserStore, uid: string, readReachable: bool, writeReachable: bool)
    returns (threw: bool)
    modifies store
    ensures Created(store.users, threw) == CreateUserDocument(old(store.users), uid, readReachable, writeReachable)
  {
    var ok, doc := store.Get(uid, readReachable);
    if !ok {
      return true;
    }
    if doc.Some? {
      return false;
    }
    ok := store.Update(Put(uid, NewOAuthAccount(uid)), writeReachable);
    threw := !ok;
  }

  /**
   * A call that does not throw leaves `uid` with a document: the existing
   * one untouched, or the defaults. A call that throws writes nothing. Other
   * documents never change.
   */
  lemma CreateUserDocumentOutcome(users: Users, uid: string, readReachable: bool, writeReachable: bool)
    ensures var r := CreateUserDocument(users, uid, readReachable, writeReachable);
            (r.threw ==> r.users == users)
            && (!r.threw ==> r.users == CreateOnce(users, uid))
            && (r.threw <==> !readReachable || (uid !in users && !writeReachable))
            && (uid in users ==> r.users == users)
  {
  }

  /** Creating twice is creating once: the second call finds the document and writes nothing. */
  lemma CreateOnceIdempotent(users: Users, uid: string)
    ensures uid in CreateOnce(users, uid)
    ensures CreateOnce(CreateOnce(users, uid), uid) == CreateOnce(users, uid)
    ensures forall u :: u in users && u != uid ==> u in CreateOnce(users, uid) && CreateOnce(users, uid)[u] == users[u]
  {
  }

  /** A second `createUserDocument` after one that did not throw changes nothing, whatever the store does. */
  lemma SecondCreateChangesNothing(users: Users, uid: string, read1: bool, write1: bool, read2: bool, write2: bool)
    ensures var r1 := CreateUserDocument(users, uid, read1, write1);
            var r2 := CreateUserDocument(r1.users, uid, read2, write2);
            !r1.threw ==> r2.users == r1.users
  {
  }

  // ---------------------------------------------------------------------------
  // the sign-up paths

  datatype Provider = Google | GitHub

  /**
   * How the visitor signs up: the e-mail form, or a provider popup, whose
   * `signedIn` is the user id it returns (`None` when the popup throws).
   */
  datatype Signup = EmailPassword(email: string, password: string)
                  | Popup(provider: Provider, signedIn: Option<string>)

  /** The user documents after a sign-up attempt. */
  function SignUp(users: Users, signup: Signup, readReachable: bool, writeReachable: bool): Users
  {
    match signup
    case EmailPassword(_, _) => users
    case Popup(_, signedIn) =>
      if signedIn.None? then users
      else CreateUserDocument(users, signedIn.value, readReachable, writeReachable).users
  }

  /** `handleGoogleSignIn` / `handleGithubSignIn`: the popup, then `createUserDocument`. */
  method HandlePopupSignIn(store: UserStore, provider: Provider, signedIn: Option<string>,
                           readReachable: bool, writeReachable: bool)
    returns (succeeded: bool)
    modifies store
    ensures store.users == SignUp(old(store.users), Popup(provider, signedIn), readReachable, writeReachable)
    ensures succeeded <==> signedIn.Some? && !CreateUserDocument(old(store.users), signedIn.value,
                                                                 readReachable, writeReachable).threw
  {
    if signedIn.None? {
      return false;
    }
    var threw := CreateUserDocumentIn(store, signedIn.value, readReachable, writeReachable);
    succeeded := !threw;
  }

  /**
   * Only a provider popup that returns a user can create a document; the
   * e-mail path and a failed popup leave the collection as it was.
   */
  lemma SignupPaths(users: Users, signup: Signup, readReachable: bool, writeReachable: bool)
    ensures signup.EmailPassword? ==> SignUp(users, signup, readReachable, writeReachable) == users
    ensures signup.Popup? && signup.signedIn.None? ==> SignUp(users, signup, readReachable, writeReachable) == users
    ensures signup.Popup? && signup.signedIn.Some? && readReachable && writeReachable ==>
              SignUp(users, signup, readReachable, writeReachable) == CreateOnce(users, signup.signedIn.value)
  {
  }
}
