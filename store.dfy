/**
  The hosted relational store, held in memory: the `profiles`, `transactions` and
  `images` tables with the constraints their DDL declares (app/api/setup-database/route.ts).
  Row ids and `created_at` values are drawn from one increasing clock, so a later
  insert always has a larger creation key.
 */
module Store {
  import opened Wrappers
  import opened Types

  /** The credits every new profile starts with: the column default and the signup trigger's value. */
  const StartingCredits: int := 16

  /**
    The row the signup trigger `handle_new_user` inserts for a new identity:
    username is the e-mail, full name comes from the signup metadata.
   */
  function NewUserProfile(id: string, email: string, fullName: Option<string>, createdAt: nat): (p: Profile)
    ensures p.id == id && p.username == Some(email) && p.fullName == fullName
    ensures Balance(p.credits) == StartingCredits && p.createdAt == createdAt
  {
    Profile(id, Some(email), fullName, Some(StartingCredits), createdAt)
  }

  /** The sum of credits of a user's completed transactions. */
  function CompletedCredits(txs: seq<TransactionRow>, userId: string): int {
    if txs == [] then 0
    else
      var t := txs[|txs| - 1];
      CompletedCredits(txs[..|txs| - 1], userId) + (if t.userId == userId && t.status == Completed then t.credits else 0)
  }

  /** Appending a completed transaction adds its credits to its owner's total and to no one else's. */
  lemma CompletedCreditsAppend(txs: seq<TransactionRow>, t: TransactionRow, userId: string)
    requires t.status == Completed
    ensures CompletedCredits(txs + [t], userId) == CompletedCredits(txs, userId) + (if t.userId == userId then t.credits else 0)
  {
    assert (txs + [t])[..|txs|] == txs;
  }

  /** A user who owns no transaction has no completed credits. */
  lemma {:induction false} CompletedCreditsWithoutRows(txs: seq<TransactionRow>, userId: string)
    requires forall k :: 0 <= k < |txs| ==> txs[k].userId != userId
    ensures CompletedCredits(txs, userId) == 0
  {
    if txs != [] {
      CompletedCreditsWithoutRows(txs[..|txs| - 1], userId);
    }
  }

  /**
    A user's balance minus the credits of their completed transactions. The ledger is
    consistent while it equals the starting grant: signup sets it so, and a purchase that
    completes every step keeps it.
   */
  ghost function Drift(profiles: map<string, Profile>, txs: seq<TransactionRow>, userId: string): int
    requires userId in profiles
  {
    Balance(profiles[userId].credits) - CompletedCredits(txs, userId)
  }

  /**
    The ledger starts consistent: the profile the signup trigger adds holds exactly the
    starting grant, since the foreign key leaves no transaction that could already
    belong to an id without a profile.
   */
  lemma SignupStartsLedger(profiles: map<string, Profile>, txs: seq<TransactionRow>,
                           id: string, email: string, fullName: Option<string>, createdAt: nat)
    requires id !in profiles
    requires forall k :: 0 <= k < |txs| ==> txs[k].userId in profiles
    ensures Drift(profiles[id := NewUserProfile(id, email, fullName, createdAt)], txs, id) == StartingCredits
  {
    CompletedCreditsWithoutRows(txs, id);
  }

  class Database {
    var profiles: map<string, Profile>
    var transactions: seq<TransactionRow>
    var images: seq<ImageRow>
    var clock: nat

    /**
      The schema's constraints: profiles are keyed by their id, a present `username` is
      unique, and `user_id` of every transaction and image references a profile. Every
      stored row was created before the current clock.
     */
    ghost predicate Valid()
      reads this
    {
      && (forall id :: id in profiles ==> profiles[id].id == id)
      && (forall a, b :: a in profiles && b in profiles && a != b && profiles[a].username.Some? ==>
            profiles[a].username != profiles[b].username)
      && (forall k :: 0 <= k < |transactions| ==> transactions[k].userId in profiles)
      && (forall k :: 0 <= k < |images| ==> images[k].userId in profiles)
      && (forall k :: 0 <= k < |transactions| ==> transactions[k].id < clock && transactions[k].createdAt < clock)
      && (forall k :: 0 <= k < |images| ==> images[k].id < clock && images[k].createdAt < clock)
    }

    /** No profile has this username, so `UNIQUE(username)` admits it. */
    ghost predicate UsernameFree(name: string)
      reads this
    {
      forall id :: id in profiles ==> profiles[id].username != Some(name)
    }

    constructor ()
      ensures Valid()
      ensures profiles == map[] && transactions == [] && images == [] && clock == 0
    {
      profiles, transactions, images, clock := map[], [], [], 0;
    }

    /**
      The `on_auth_user_created` trigger: inserts the new identity's profile with the
      e-mail as username. Fails, and the signup with it, when a profile with that id
      exists (primary key) or another profile already has that username (`UNIQUE`).
     */
    method HandleNewUser(id: string, email: string, fullName: Option<string>) returns (ok: bool)
      requires Valid()
      modifies this
      ensures Valid()
      ensures ok == (id !in old(profiles) && old(UsernameFree(email)))
      ensures profiles == if ok then old(profiles)[id := NewUserProfile(id, email, fullName, old(clock))]
                          else old(profiles)
      ensures clock == if ok then old(clock) + 1 else old(clock)
      ensures transactions == old(transactions) && images == old(images)
      ensures ok ==> id in profiles && Drift(profiles, transactions, id) == StartingCredits
    {
      ok := id !in profiles && forall p :: p in profiles ==> profiles[p].username != Some(email);
      if ok {
        SignupStartsLedger(profiles, transactions, id, email, fullName, clock);
        profiles := profiles[id := NewUserProfile(id, email, fullName, clock)];
        clock := clock + 1;
      }
    }

    /** Appends a transaction row of an existing profile, stamped with the clock, and advances the clock. */
    method InsertTransaction(userId: string, amount: int, credits: int, status: TransactionStatus,
                             paymentIntent: Option<string>) returns (row: TransactionRow)
      requires Valid() && userId in profiles
      modifies this
      ensures Valid()
      ensures row == TransactionRow(old(clock), userId, amount, credits, status, paymentIntent, old(clock))
      ensures transactions == old(transactions) + [row] && clock == old(clock) + 1
      ensures profiles == old(profiles) && images == old(images)
    {
      row := TransactionRow(clock, userId, amount, credits, status, paymentIntent, clock);
      transactions := transactions + [row];
      clock := clock + 1;
    }

    /** Appends an image row of an existing profile, stamped with the clock, and advances the clock. */
    method InsertImage(userId: string, prompt: string, model: string, imageUrl: string) returns (row: ImageRow)
      requires Valid() && userId in profiles
      modifies this
      ensures Valid()
      ensures row == ImageRow(old(clock), userId, prompt, model, imageUrl, old(clock))
      ensures images == old(images) + [row] && clock == old(clock) + 1
      ensures profiles == old(profiles) && transactions == old(transactions)
    {
      row := ImageRow(clock, userId, prompt, model, imageUrl, clock);
      images := images + [row];
      clock := clock + 1;
    }

    /**
      `update({ credits }).eq("id", id)`: sets the credits of the profile with that id;
      an id with no profile matches no row and changes nothing.
     */
    method UpdateCredits(id: string, credits: int)
      requires Valid()
      modifies this
      ensures Valid()
      ensures profiles == if id in old(profiles) then old(profiles)[id := old(profiles)[id].(credits := Some(credits))]
                          else old(profiles)
      ensures transactions == old(transactions) && images == old(images) && clock == old(clock)
    {
      if id in profiles {
        profiles := profiles[id := profiles[id].(credits := Some(credits))];
      }
    }
  }
}
