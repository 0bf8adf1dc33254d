/**
 * The two post_save receivers on User (core/signals.py) and the user
 * creation that fires them. Receivers run in the order they are connected:
 * `create_profile`, then `save_profile`.
 */
module Signals {
  import opened Common
  import opened Models
  import opened Storage

  /** create_profile: a newly created user gets a Profile with role CLIENT; an existing one gets nothing. */
  method CreateProfile(s: Store, user: UserId, created: bool) returns (r: Result<()>)
    requires s.Valid() && user in s.users
    modifies s
    ensures s.Valid()
    ensures !created ==> r.Ok? && s.Snapshot() == old(s.Snapshot())
    ensures created ==> (r.Err? <==> user in old(s.profiles))
    ensures created && r.Ok? ==>
      s.Snapshot() == old(s.Snapshot()).(profiles := old(s.profiles)[user := Profile(Client)])
    ensures r.Err? ==> r.error == Integrity && s.Snapshot() == old(s.Snapshot())
  {
    r := Ok(());
    if created {
      r := s.InsertProfile(user, Profile(Client));
    }
  }

  /**
   * save_profile: `instance.profile.save()` rewrites the profile as it is,
   * so its role is unchanged; a user without a profile raises.
   */
  method SaveProfile(s: Store, user: UserId) returns (r: Result<()>)
    requires s.Valid()
    modifies s
    ensures s.Valid()
    ensures r.Ok? <==> user in old(s.profiles)
    ensures r.Err? ==> r.error == MissingRelated
    ensures s.Snapshot() == old(s.Snapshot())
  {
    if user !in s.profiles {
      return Err(MissingRelated);
    }
    s.UpdateProfile(user, s.profiles[user]);
    r := Ok(());
  }

  /** post_save on User: both receivers, in order; the first failure stops the save. */
  method PostSaveUser(s: Store, user: UserId, created: bool) returns (r: Result<()>)
    requires s.Valid() && user in s.users
    modifies s
    ensures s.Valid()
    ensures created && user !in old(s.profiles) ==>
      r.Ok? && s.Snapshot() == old(s.Snapshot()).(profiles := old(s.profiles)[user := Profile(Client)])
    ensures !created ==> (r.Ok? <==> user in old(s.profiles)) && s.Snapshot() == old(s.Snapshot())
    ensures r.Err? ==> s.Snapshot() == old(s.Snapshot())
  {
    r := CreateProfile(s, user, created);
    if r.Err? {
      return;
    }
    r := SaveProfile(s, user);
  }

  /**
   * `User.objects.create_user(username, password, email)`: inserts the user,
   * whose post_save gives it exactly one profile, with role CLIENT. Only
   * these three values reach it. A taken username is refused.
   */
  method CreateUser(s: Store, username: string, password: string, email: string) returns (r: Result<UserId>)
    requires s.Valid()
    modifies s
    ensures s.Valid()
    ensures r.Err? <==> UsernameTaken(old(s.users), username)
    ensures r.Err? ==> s.Snapshot() == old(s.Snapshot())
    ensures r.Ok? ==>
      && r.value == old(s.nextUserId) && r.value !in old(s.users)
      && s.Snapshot() == old(s.Snapshot()).(
           users := old(s.users)[r.value := User(username, password, email)],
           profiles := old(s.profiles)[r.value := Profile(Client)],
           nextUserId := old(s.nextUserId) + 1)
    ensures old(s.EveryUserHasProfile()) ==> s.EveryUserHasProfile()
  {
    r := s.InsertUser(User(username, password, email));
    if r.Err? {
      return;
    }
    var saved := PostSaveUser(s, r.value, true);
    assert saved.Ok?;
  }

  /** Saving an existing user: post_save with `created` false adds no profile and changes none. */
  method SaveUser(s: Store, user: UserId) returns (r: Result<()>)
    requires s.Valid() && user in s.users
    modifies s
    ensures s.Valid()
    ensures r.Ok? <==> user in old(s.profiles)
    ensures s.Snapshot() == old(s.Snapshot())
  {
    r := PostSaveUser(s, user, false);
  }
}
