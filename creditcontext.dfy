/** components/CreditContext.tsx: the credit provider, which holds the
    user's profile in memory and writes every change through to the
    `user_profile` store before adopting it. */
module CreditContext {
  import opened Types
  import opened Db

  /** The profile after one generation is paid for, or None when the
      generation is refused. Admins and subscribers are never charged; anyone
      else pays one credit and needs a positive balance. */
  function Charge(p: UserProfile): (r: Option<UserProfile>)
    ensures r.None? <==> !Truthy(p.isAdmin) && !p.isSubscribed && p.credits <= 0
    ensures r.Some? && (Truthy(p.isAdmin) || p.isSubscribed) ==> r.value == p
    ensures r.Some? && !Truthy(p.isAdmin) && !p.isSubscribed ==>
              r.value.credits == p.credits - 1 && r.value.credits >= 0 && r.value.(credits := p.credits) == p
  {
    if Truthy(p.isAdmin) || p.isSubscribed then Some(p)
    else if p.credits > 0 then Some(p.(credits := p.credits - 1))
    else None
  }

  /** `toggleAdmin`'s new flag: an absent flag counts as false. */
  function ToggledAdmin(p: UserProfile): (r: UserProfile)
    ensures Truthy(r.isAdmin) == !Truthy(p.isAdmin) && r.isAdmin.Some?
    ensures r.(isAdmin := p.isAdmin) == p
  {
    p.(isAdmin := Some(!Truthy(p.isAdmin)))
  }

  /** Toggling twice restores an explicit flag; an absent one becomes false. */
  lemma ToggleAdminTwice(p: UserProfile)
    ensures p.isAdmin.Some? ==> ToggledAdmin(ToggledAdmin(p)) == p
    ensures p.isAdmin.None? ==> ToggledAdmin(ToggledAdmin(p)) == p.(isAdmin := Some(false))
  {
    if p.isAdmin.Some? {
      assert Truthy(p.isAdmin) == p.isAdmin.value;
    }
  }

  /** A non-negative balance stays non-negative however many generations
      are charged. */
  lemma {:induction false} ChargesKeepBalance(p: UserProfile, n: nat)
    requires p.credits >= 0
    ensures ChargeTimes(p, n).credits >= 0
    ensures ChargeTimes(p, n).credits >= p.credits - n
  {
    if n > 0 {
      ChargesKeepBalance(p, n - 1);
    }
  }

  /** The profile after `n` attempts to charge a generation. */
  function ChargeTimes(p: UserProfile, n: nat): UserProfile {
    if n == 0 then p
    else var q := ChargeTimes(p, n - 1); if Charge(q).Some? then Charge(q).value else q
  }

  class CreditProvider {
    /** The `profile` state: null until loaded. */
    var profile: Option<UserProfile>
    var isLoading: bool
    /** The database the profile is written through to. */
    const db: Database

    /** The profile in memory is the one stored under its id. */
    ghost predicate Valid()
      reads this, db
    {
      && db.Valid()
      && (profile.Some? ==> profile.value.id in db.profiles && db.profiles[profile.value.id] == profile.value)
    }

    constructor (db: Database)
      requires db.Valid()
      ensures Valid() && this.db == db
      ensures profile.None? && isLoading
    {
      this.db := db;
      profile, isLoading := None, true;
    }

    /** The `credits` value exposed to consumers (`profile?.credits || 0`). */
    function Credits(): (c: int)
      reads this
      ensures profile.None? ==> c == 0
      ensures profile.Some? ==> c == profile.value.credits
    {
      if profile.Some? then profile.value.credits else 0
    }

    /** The `isSubscribed` value exposed to consumers. */
    function IsSubscribed(): (b: bool)
      reads this
      ensures b <==> profile.Some? && profile.value.isSubscribed
    {
      profile.Some? && profile.value.isSubscribed
    }

    /** The `isAdmin` value exposed to consumers: an absent flag reads false. */
    function IsAdmin(): (b: bool)
      reads this
      ensures b <==> profile.Some? && profile.value.isAdmin == Some(true)
    {
      profile.Some? && Truthy(profile.value.isAdmin)
    }

    /** `loadProfile`: fetch (or create) the stored profile and adopt it. */
    method LoadProfile()
      requires Valid()
      modifies this, db
      ensures Valid()
      ensures old(UserKey in db.profiles) ==> profile == Some(old(db.profiles[UserKey]))
      ensures old(UserKey !in db.profiles) ==> profile == Some(DefaultProfile)
      ensures old(UserKey in db.profiles) ==> db.profiles == old(db.profiles)
      ensures old(UserKey !in db.profiles) ==> db.profiles == old(db.profiles)[UserKey := DefaultProfile]
      ensures !isLoading
      ensures db.projects == old(db.projects) && db.nextProjectKey == old(db.nextProjectKey) && db.presets == old(db.presets)
    {
      var p := db.GetUserProfile();
      profile := Some(p);
      isLoading := false;
    }

    /** Write `p` through to the store and adopt it. */
    method Adopt(p: UserProfile)
      requires Valid()
      modifies this, db
      ensures Valid()
      ensures profile == Some(p) && db.profiles == old(db.profiles)[p.id := p]
      ensures isLoading == old(isLoading)
      ensures db.projects == old(db.projects) && db.nextProjectKey == old(db.nextProjectKey) && db.presets == old(db.presets)
    {
      db.UpdateUserProfile(p);
      profile := Some(p);
    }

    /** `addCredits`: add `amount` to the balance; nothing without a profile. */
    method AddCredits(amount: int)
      requires Valid()
      modifies this, db
      ensures Valid()
      ensures old(profile).None? ==> profile == old(profile) && db.profiles == old(db.profiles)
      ensures old(profile).Some? ==> profile == Some(old(profile).value.(credits := old(profile).value.credits + amount))
      ensures old(profile).Some? ==> Credits() == old(Credits()) + amount
      ensures old(profile).Some? ==> db.profiles == old(db.profiles)[old(profile).value.id := profile.value]
      ensures isLoading == old(isLoading)
      ensures db.projects == old(db.projects) && db.nextProjectKey == old(db.nextProjectKey) && db.presets == old(db.presets)
    {
      if profile.Some? {
        var p := profile.value;
        Adopt(p.(credits := p.credits + amount));
      }
    }

    /** `deductCredit`: pay for one generation. Answers whether it may go
        ahead; only a paid generation changes the profile. */
    method DeductCredit() returns (ok: bool)
      requires Valid()
      modifies this, db
      ensures Valid()
      ensures old(profile).None? ==> !ok && profile == old(profile) && db.profiles == old(db.profiles)
      ensures old(profile).Some? ==> ok == Charge(old(profile).value).Some?
      ensures old(profile).Some? && ok ==> profile == Charge(old(profile).value)
      ensures !ok ==> profile == old(profile) && db.profiles == old(db.profiles)
      ensures ok && !old(IsAdmin()) && !old(IsSubscribed()) ==> Credits() == old(Credits()) - 1
      ensures ok && (old(IsAdmin()) || old(IsSubscribed())) ==> profile == old(profile) && db.profiles == old(db.profiles)
      ensures ok && !old(IsAdmin()) && !old(IsSubscribed()) ==> db.profiles == old(db.profiles)[old(profile).value.id := profile.value]
      ensures isLoading == old(isLoading)
      ensures db.projects == old(db.projects) && db.nextProjectKey == old(db.nextProjectKey) && db.presets == old(db.presets)
    {
      if profile.None? {
        return false;
      }
      var p := profile.value;
      if Truthy(p.isAdmin) || p.isSubscribed {
        return true;
      }
      if p.credits > 0 {
        Adopt(p.(credits := p.credits - 1));
        return true;
      }
      return false;
    }

    /** `subscribe`: mark the profile subscribed; nothing without a profile. */
    method Subscribe()
      requires Valid()
      modifies this, db
      ensures Valid()
      ensures old(profile).None? ==> profile == old(profile) && db.profiles == old(db.profiles)
      ensures old(profile).Some? ==> profile == Some(old(profile).value.(isSubscribed := true)) && IsSubscribed()
      ensures old(IsSubscribed()) ==> profile == old(profile) && db.profiles == old(db.profiles)
      ensures old(profile).Some? ==> db.profiles == old(db.profiles)[old(profile).value.id := profile.value]
      ensures isLoading == old(isLoading)
      ensures db.projects == old(db.projects) && db.nextProjectKey == old(db.nextProjectKey) && db.presets == old(db.presets)
    {
      if profile.Some? {
        var p := profile.value;
        Adopt(p.(isSubscribed := true));
      }
    }

    /** `toggleAdmin`: flip the admin flag; nothing without a profile. */
    method ToggleAdmin()
      requires Valid()
      modifies this, db
      ensures Valid()
      ensures old(profile).None? ==> profile == old(profile) && db.profiles == old(db.profiles)
      ensures old(profile).Some? ==> profile == Some(ToggledAdmin(old(profile).value)) && IsAdmin() == !old(IsAdmin())
      ensures old(profile).Some? ==> db.profiles == old(db.profiles)[old(profile).value.id := profile.value]
      ensures isLoading == old(isLoading)
      ensures db.projects == old(db.projects) && db.nextProjectKey == old(db.nextProjectKey) && db.presets == old(db.presets)
    {
      if profile.Some? {
        Adopt(ToggledAdmin(profile.value));
      }
    }
  }
}
