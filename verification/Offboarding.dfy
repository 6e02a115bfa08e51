/** What becomes of a user's door keys when the user's membership of a tenant ends. Removing the
    user from the tenant revokes the keys as well, if the credential store is there and answers;
    every other way of losing the last role leaves them. */
module Offboarding {
  import opened Text
  import Directory
  import DirectoryRuns
  import ServiceCredentials

  predicate Purging(r: Directory.Request, o: Directory.Outcome, purges: bool) {
    r.RemoveUser? && o == Directory.Applied && purges
  }

  /** The credentials after a request; `purges` says whether the store is enabled and answers. */
  function RowsAfter(rows: ServiceCredentials.Rows, s: Directory.State, c: Directory.Caller, r: Directory.Request,
                     o: Directory.Outcome, purges: bool): ServiceCredentials.Rows {
    if Purging(r, o, purges) then ServiceCredentials.WithoutTenant(rows, Directory.Target(s, r), c.tenant) else rows
  }

  class TenantExit {
    const admin: Directory.Administration
    const store: ServiceCredentials.ServiceCredentialStore

    constructor (admin: Directory.Administration, store: ServiceCredentials.ServiceCredentialStore)
      ensures this.admin == admin && this.store == store
    {
      this.admin := admin;
      this.store := store;
    }

    /** The purge is best-effort: when it fails the removal stands all the same. */
    method PurgeTenantCredentials(uid: string, tenant: string, purges: bool) returns (purged: nat)
      modifies store
      ensures store.rows == if purges
                            then ServiceCredentials.WithoutTenant(old(store.rows), uid, tenant)
                            else old(store.rows)
      ensures purged == |old(store.rows)| - |store.rows|
    {
      if !purges { return 0; }
      purged := store.RevokeAllForTenant(uid, tenant);
    }

    method RemoveUser(c: Directory.Caller, login: string, accepts: bool, purges: bool) returns (o: Directory.Outcome)
      modifies admin, admin.ldap, store
      ensures Directory.Next(old(admin.Now()), c, Directory.RemoveUser(login), o, admin.Now())
      ensures store.rows == RowsAfter(old(store.rows), old(admin.Now()), c, Directory.RemoveUser(login), o, purges)
    {
      hide Directory.Intended, Directory.HalfWay, Directory.Between, ServiceCredentials.WithoutTenant;
      ghost var s := admin.Now();
      var uid := if login in admin.ldap.accounts then admin.ldap.accounts[login] else login;
      o := admin.RemoveUser(c, login, accepts);
      if o == Directory.Applied {
        var purged := PurgeTenantCredentials(uid, c.tenant, purges);
      }
    }
  }

  /** The request ends the user's membership of the tenant. */
  predicate Leaves(s: Directory.State, t: Directory.State, tenant: string, uid: string) {
    Directory.RolesOf(s.groups, tenant, uid) != {} && Directory.RolesOf(t.groups, tenant, uid) == {}
  }

  /** A session of a key in good standing passes its status check. */
  predicate Passes(inNet: ServiceCredentials.InNetwork, rows: ServiceCredentials.Rows, key: string,
                   generation: ServiceCredentials.Generation, u: ServiceCredentials.Use) {
    var check := ServiceCredentials.Checked(inNet, rows, key, None, u);
    check.Some? && check.value.generation == generation
  }

  /** When a request ends a user's membership, the user's sessions there end with it exactly if
      the request removed the user and the purge went through. */
  lemma SessionsEndIff(inNet: ServiceCredentials.InNetwork, rows: ServiceCredentials.Rows,
                       s: Directory.State, c: Directory.Caller, r: Directory.Request,
                       o: Directory.Outcome, t: Directory.State,
                       purges: bool, uid: string, key: string, u: ServiceCredentials.Use)
    requires Directory.Next(s, c, r, o, t) && Leaves(s, t, c.tenant, uid)
    requires key in rows && rows[key].uid == uid && rows[key].tenant == c.tenant
    requires ServiceCredentials.Usable(inNet, rows[key], u)
    ensures Passes(inNet, RowsAfter(rows, s, c, r, o, purges), key, ServiceCredentials.Generation(rows[key].mac), u)
            <==> !Purging(r, o, purges)
  {
    if Purging(r, o, purges) && Directory.Target(s, r) != uid {
      DirectoryRuns.SuccessIsExact(s, c, r, t, c.tenant, uid);
    }
    hide Directory.Next, ServiceCredentials.Usable;
  }

  /** Sessions of everybody else, and those in other tenants, are never touched. */
  lemma OtherSessionsStay(inNet: ServiceCredentials.InNetwork, rows: ServiceCredentials.Rows,
                          s: Directory.State, c: Directory.Caller, r: Directory.Request, o: Directory.Outcome,
                          purges: bool, key: string, u: ServiceCredentials.Use)
    requires key in rows && (rows[key].uid != Directory.Target(s, r) || rows[key].tenant != c.tenant)
    ensures ServiceCredentials.Checked(inNet, RowsAfter(rows, s, c, r, o, purges), key, None, u)
            == ServiceCredentials.Checked(inNet, rows, key, None, u)
  {
    hide ServiceCredentials.Usable;
  }

  const BOSS := Directory.Caller("boss", "t")

  /** Ada holds one role in a tenant that `boss` administers. */
  function OneRole(): Directory.State {
    Directory.State(
      map[Directory.Group("t", Directory.ADMINS) := {"boss"}, Directory.Group("t", "editors") := {"ada"}],
      map["ada" := "ada", "boss" := "boss"], [], false)
  }

  /** Taking Ada's last role away, or deleting it, ends her membership; her session goes on. */
  lemma LastRoleKeepsSession(inNet: ServiceCredentials.InNetwork, rows: ServiceCredentials.Rows, r: Directory.Request,
                             o: Directory.Outcome, t: Directory.State, purges: bool,
                             key: string, u: ServiceCredentials.Use)
    requires r == Directory.RemoveMember("editors", "ada") || r == Directory.DeleteRole("editors")
    requires Directory.Next(OneRole(), BOSS, r, o, t) && Directory.Completes(OneRole(), BOSS, r, o, t)
    requires key in rows && rows[key].uid == "ada" && rows[key].tenant == "t"
    requires ServiceCredentials.Usable(inNet, rows[key], u)
    ensures o == Directory.Applied && Leaves(OneRole(), t, "t", "ada")
    ensures Passes(inNet, RowsAfter(rows, OneRole(), BOSS, r, o, purges), key,
                   ServiceCredentials.Generation(rows[key].mac), u)
  {
    hide ServiceCredentials.Usable;
    EditorsOnly();
    EditorsGone(r);
  }

  lemma EditorsOnly()
    ensures Directory.RolesOf(OneRole().groups, "t", "ada") == {"editors"}
    ensures Directory.TenantAdmin(OneRole().groups, BOSS)
  {
    var g := Directory.Group("t", "editors");
    assert g in OneRole().groups && g.role == "editors";
  }

  lemma EditorsGone(r: Directory.Request)
    requires r == Directory.RemoveMember("editors", "ada") || r == Directory.DeleteRole("editors")
    ensures Directory.Refusing(OneRole(), BOSS, r) == None && Directory.Possible(OneRole(), BOSS, r)
    ensures Directory.RolesOf(Directory.Intended(OneRole(), BOSS, r), "t", "ada") == {}
  {
    EditorsOnly();
  }
}
