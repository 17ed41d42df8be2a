/** The root layout's announcements: which audiences a signed-in user belongs to, and the
    active, unexpired announcements addressed to them. */
module Layout {
  import opened Wrappers
  import opened Web
  import opened Db
  import opened Hooks

  /** Whether an announcement reaches a user of `tier` at `now`. */
  predicate Reaches(a: Announcement, tier: string, now: int) {
    && a.isActive
    && (a.target == "all" || a.target == tier || (a.target == "pro" && (tier == "pro" || tier == "business")))
    && (a.expiresAt.None? || a.expiresAt.value >= now)
  }

  /** The announcements of the store that reach `tier`, newest first; rows are stored in
      creation order, so entry `k` is the `k`-th matching row counted from the end. */
  function Shown(s: State, tier: string, now: int): (r: seq<Announcement>)
    ensures var m := Filter(s.announcements, (a: Announcement) => Reaches(a, tier, now));
      |r| == |m| && forall k :: 0 <= k < |r| ==> r[k] == m[|m| - 1 - k]
    ensures forall a :: a in r <==> a in s.announcements && Reaches(a, tier, now)
  {
    var matching := Filter(s.announcements, (a: Announcement) => Reaches(a, tier, now));
    var r := NewestFirst(matching);
    forall a | a in matching
      ensures a in r
    {
      var i :| 0 <= i < |matching| && matching[i] == a;
      assert r[|matching| - 1 - i] == a;
    }
    forall a | a in r
      ensures a in matching
    {
      var i :| 0 <= i < |r| && r[i] == a;
      assert matching[|matching| - 1 - i] == a;
    }
    r
  }

  /** A `pro` announcement reaches business users as well as pro users, but neither free
      nor starter users. */
  lemma ProAnnouncementAudience(a: Announcement, now: int)
    requires a.target == "pro" && a.isActive && (a.expiresAt.None? || a.expiresAt.value >= now)
    ensures Reaches(a, "pro", now) && Reaches(a, "business", now)
    ensures !Reaches(a, "free", now) && !Reaches(a, "starter", now)
  {
  }

  /** Since the hook never sets a plan tier, a signed-in user only ever sees announcements
      addressed to `all` or to `free`. */
  lemma HookedUsersSeeFreeAudience(s: State, cookie: Option<string>, now: int, s2: State, when: int)
    requires Handle(s, cookie, now).1.user.Some?
    ensures forall a :: a in Shown(s2, TierOf(Handle(s, cookie, now).1.user.value), when) ==>
      a.target == "all" || a.target == "free"
  {
    LocalsCarryNoRole(s, cookie, now);
  }

  class LayoutLoad {
    const db: Database

    constructor (db: Database)
      ensures this.db == db
    {
      this.db := db;
    }

    /** The `targets` list: `all` and the tier, plus `pro` for pro and business users. */
    method Targets(user: LocalUser) returns (targets: seq<string>)
      ensures |targets| >= 2 && targets[..2] == ["all", TierOf(user)]
      ensures forall t :: t in targets <==>
        t == "all" || t == TierOf(user) || (t == "pro" && (TierOf(user) == "pro" || TierOf(user) == "business"))
    {
      var userTier := TierOf(user);
      targets := ["all", userTier];
      if userTier == "pro" || userTier == "business" {
        targets := targets + ["pro"];
      }
    }

    /** `load`: no announcements without a user; otherwise the active, unexpired ones whose
        target is in `targets`, newest first. */
    method Load(user: Option<LocalUser>, now: int) returns (announcements: seq<Announcement>)
      ensures user.None? ==> announcements == []
      ensures user.Some? ==> announcements == Shown(db.Snapshot(), TierOf(user.value), now)
    {
      announcements := [];
      if user.Some? {
        var targets := Targets(user.value);
        var rows := Filter(db.announcements, (a: Announcement) =>
          a.isActive && a.target in targets && (a.expiresAt.None? || a.expiresAt.value >= now));
        assert rows == Filter(db.announcements, (a: Announcement) => Reaches(a, TierOf(user.value), now)) by {
          FilterSamePredicate(db.announcements,
            (a: Announcement) => a.isActive && a.target in targets && (a.expiresAt.None? || a.expiresAt.value >= now),
            (a: Announcement) => Reaches(a, TierOf(user.value), now));
        }
        announcements := NewestFirst(rows);
      }
    }
  }
}
