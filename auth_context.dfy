/**
  The client-side auth state (context/auth-context.tsx): the signed-in `user` and the
  `loading` flag, loaded from the `profiles` table when a session exists, kept in step
  with auth events, and updated after a successful credits write.
 */
module AuthContext {
  import opened Wrappers
  import opened Types
  import opened Store

  /** The part of an auth session the context reads: the identity's id and e-mail. */
  datatype Session = Session(userId: string, email: string)

  /**
    The outcome of `getSession()`: an error (returned or thrown; both end the operation
    without touching `user`), no session, or an active session.
   */
  datatype SessionReply = SessionError(message: string) | NoSession | Active(session: Session)

  /** The auth events the listener tells apart; every other event name is `OtherEvent`. */
  datatype AuthEvent = SignedIn | SignedOut | OtherEvent(name: string)

  /**
    `fetchUserProfile`: the profile row with this id, or None when the query errors,
    throws or finds no row (`.single()` reports a missing row as an error). It never throws.
   */
  function FetchUserProfile(profiles: map<string, Profile>, userId: string, call: Call): (r: Option<Profile>)
    ensures r.Some? <==> call.Answered? && userId in profiles
    ensures r.Some? ==> r.value == profiles[userId]
  {
    if call.Answered? && userId in profiles then Some(profiles[userId]) else None
  }

  /** The profile-to-User mapping: the profile's columns, with the e-mail taken from the session. */
  function ToUser(p: Profile, email: string): (u: User)
    ensures u.id == p.id && u.email == email && u.credits == p.credits
    ensures ProfileOf(u) == p
  {
    User(p.id, email, p.username, p.fullName, p.credits, p.createdAt)
  }

  /** The profile columns a User carries. */
  function ProfileOf(u: User): Profile {
    Profile(u.id, u.username, u.fullName, u.credits, u.createdAt)
  }

  /** The mapping loses nothing: a User and its session e-mail determine the profile, and back. */
  lemma ToUserRoundTrip(p: Profile, email: string, u: User)
    ensures ProfileOf(ToUser(p, email)) == p && ToUser(p, email).email == email
    ensures ToUser(ProfileOf(u), u.email) == u
  {
  }

  /**
    After a successful credits write for a user whose local copy matched the stored
    profile, fetching the profile again yields exactly the updated local user.
   */
  lemma UpdateThenFetchAgrees(profiles: map<string, Profile>, u: User, newCredits: int)
    requires u.id in profiles && ToUser(profiles[u.id], u.email) == u
    ensures var fetched := FetchUserProfile(profiles[u.id := profiles[u.id].(credits := Some(newCredits))], u.id, Answered);
      fetched.Some? && ToUser(fetched.value, u.email) == u.(credits := Some(newCredits))
  {
  }

  class AuthProvider {
    var user: Option<User>
    var loading: bool

    constructor ()
      ensures user == None && loading
    {
      user, loading := None, true;
    }

    /** Sets `user` from the session's profile when one is found; otherwise leaves it. */
    method LoadProfile(db: Database, s: Session, profileCall: Call)
      modifies this
      ensures var p := FetchUserProfile(db.profiles, s.userId, profileCall);
        user == if p.Some? then Some(ToUser(p.value, s.email)) else old(user)
      ensures loading == old(loading)
    {
      var profile := FetchUserProfile(db.profiles, s.userId, profileCall);
      if profile.Some? {
        user := Some(ToUser(profile.value, s.email));
      }
    }

    /** The initial fetch run when the provider mounts: `loading` ends false whatever happens. */
    method FetchUser(db: Database, session: SessionReply, profileCall: Call)
      modifies this
      ensures !loading
      ensures !session.Active? ==> user == old(user)
      ensures session.Active? ==>
        var p := FetchUserProfile(db.profiles, session.session.userId, profileCall);
        user == if p.Some? then Some(ToUser(p.value, session.session.email)) else old(user)
    {
      if session.SessionError? {
        loading := false;
        return;
      }
      if session.Active? {
        LoadProfile(db, session.session, profileCall);
      }
      loading := false;
    }

    /** `refreshUserData`: reloads the user; a session error, no session or no profile leave it as it was. */
    method RefreshUserData(db: Database, session: SessionReply, profileCall: Call)
      modifies this
      ensures loading == old(loading)
      ensures !session.Active? ==> user == old(user)
      ensures session.Active? ==>
        var p := FetchUserProfile(db.profiles, session.session.userId, profileCall);
        user == if p.Some? then Some(ToUser(p.value, session.session.email)) else old(user)
    {
      match session
      case SessionError(_) =>
      case NoSession =>
      case Active(s) => LoadProfile(db, s, profileCall);
    }

    /**
      The auth-state listener: SIGNED_IN with a session loads the profile, SIGNED_OUT
      clears the user, and every other event leaves it. The delayed retry after a missing
      profile is not part of this model.
     */
    method OnAuthStateChange(db: Database, event: AuthEvent, session: Option<Session>, profileCall: Call)
      modifies this
      ensures loading == old(loading)
      ensures event.SignedOut? ==> user == None
      ensures event.OtherEvent? || (event.SignedIn? && session.None?) ==> user == old(user)
      ensures event.SignedIn? && session.Some? ==>
        var p := FetchUserProfile(db.profiles, session.value.userId, profileCall);
        user == if p.Some? then Some(ToUser(p.value, session.value.email)) else old(user)
    {
      if event.SignedIn? && session.Some? {
        LoadProfile(db, session.value, profileCall);
      } else if event.SignedOut? {
        user := None;
      }
    }

    /**
      `updateCredits`: with no user, returns false. Otherwise writes the credits of the
      profile with the user's id; on an error (returned or thrown) returns false and
      changes nothing, and on success replaces only the local user's credits.
     */
    method UpdateCredits(db: Database, newCredits: int, call: Call) returns (ok: bool)
      requires db.Valid()
      modifies this, db
      ensures db.Valid()
      ensures loading == old(loading)
      ensures ok <==> old(user).Some? && call.Answered?
      ensures !ok ==> user == old(user) && unchanged(db)
      ensures ok ==>
        var u := old(user).value;
        && user == Some(u.(credits := Some(newCredits)))
        && db.profiles == (if u.id in old(db.profiles)
                           then old(db.profiles)[u.id := old(db.profiles)[u.id].(credits := Some(newCredits))]
                           else old(db.profiles))
        && db.transactions == old(db.transactions) && db.images == old(db.images) && db.clock == old(db.clock)
    {
      if user.None? {
        return false;
      }
      if !call.Answered? {
        return false;
      }
      var u := user.value;
      db.UpdateCredits(u.id, newCredits);
      user := Some(u.(credits := Some(newCredits)));
      return true;
    }
  }
}
