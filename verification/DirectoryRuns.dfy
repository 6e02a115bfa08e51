/** What every run of administration requests keeps, whoever makes them and wherever the audit
    log or the directory fails. */
module DirectoryRuns {
  import opened Text
  import opened Directory

  // ---------------------------------------------------------------- one request

  /** Groups of other tenants are untouched. */
  predicate OthersSame(a: Groups, b: Groups, tenant: string) {
    && (forall g :: g in a && g.tenant != tenant ==> g in b && b[g] == a[g])
    && (forall g :: g in b && g.tenant != tenant ==> g in a)
  }

  lemma IntendedLeavesOthers(s: State, c: Caller, r: Request)
    ensures OthersSame(s.groups, HalfWay(s, c, r), c.tenant) && OthersSame(s.groups, Intended(s, c, r), c.tenant)
  {
    hide Added, Dropped, Target, Possible;
  }

  lemma BetweenLeavesOthers(s: Groups, a: Groups, b: Groups, t: Groups, tenant: string)
    requires OthersSame(s, a, tenant) && OthersSame(s, b, tenant) && Between(a, b, t)
    ensures OthersSame(s, t, tenant)
  {
  }

  /** No request touches another tenant's groups. */
  lemma StaysInTenant(s: State, c: Caller, r: Request, o: Outcome, t: State)
    requires Next(s, c, r, o, t)
    ensures OthersSame(s.groups, t.groups, c.tenant)
  {
    hide HalfWay, Intended, Between, Refusing, Idle, Possible;
    IntendedLeavesOthers(s, c, r);
    if o.DirectoryFailed? {
      if Between(s.groups, HalfWay(s, c, r), t.groups) {
        BetweenLeavesOthers(s.groups, s.groups, HalfWay(s, c, r), t.groups, c.tenant);
      } else {
        BetweenLeavesOthers(s.groups, HalfWay(s, c, r), Intended(s, c, r), t.groups, c.tenant);
      }
    }
  }

  lemma HeldIsNamed(groups: Groups, tenant: string, uid: string, role: string)
    ensures role in RolesOf(groups, tenant, uid) <==> uid in Members(groups, tenant, role)
  {
    if uid in Members(groups, tenant, role) { assert Group(tenant, role) in groups; }
  }

  /** Whoever is added to a role by a permitted request, it is not a system role; and whoever
      loses `administrators`, it is not the caller. */
  lemma PermittedMeans(s: State, c: Caller, r: Request)
    requires Refusing(s, c, r) == None
    ensures FILE_SERVICES !in Added(s, c, r)
    ensures ADMINS in Dropped(s, c, r) ==> Target(s, r) != c.user
    ensures r != DeleteRole(ADMINS)
    ensures TenantAdmin(s.groups, c)
  {
    hide Norm, RoleNames;
    if r.SetUserRoles? {
      assert SystemRole(FILE_SERVICES);
      HeldIsNamed(s.groups, c.tenant, Target(s, r), ADMINS);
    }
    if r.CreateUser? { assert SystemRole(FILE_SERVICES); }
  }

  /** The guard: the caller stays, and there are others. */
  predicate MayLoseAdmin(s: State, c: Caller, uid: string) {
    uid != c.user && |Members(s.groups, c.tenant, "administrators")| > 1
  }

  /** Which requests are permitted: only a tenant administrator's; the administrators role and the
      system role stay; only roles of the tenant are given, the system role to nobody who lacks
      it; only members' roles are set or taken, and setting leaves at least one; and whoever loses
      the administrators role is not the caller. */
  lemma PermittedIff(s: State, c: Caller, r: Request)
    ensures Refusing(s, c, r) == None <==>
              && c.user in Members(s.groups, c.tenant, "administrators")
              && match r
                 case CreateRole(_) => true
                 case DeleteRole(role) => role != "administrators" && role != "file_services"
                 case AddMember(role, _) => role != "file_services"
                 case RemoveMember(role, uid) =>
                   && role != "file_services"
                   && (role == "administrators" ==> MayLoseAdmin(s, c, uid))
                 case CreateUser(_, roles) =>
                   forall role :: role in roles ==> role in RoleNames(s.groups, c.tenant) && role != "file_services"
                 case SetUserRoles(login, roles) =>
                   && login in s.accounts
                   && var uid := s.accounts[login];
                      var held := RolesOf(s.groups, c.tenant, uid);
                      && held != {} && Norm(roles) != {} && Norm(roles) <= RoleNames(s.groups, c.tenant)
                      && ("file_services" in Norm(roles) ==> "file_services" in held)
                      && ("administrators" in held && "administrators" !in Norm(roles) ==> MayLoseAdmin(s, c, uid))
                 case RemoveUser(login) =>
                   && login in s.accounts
                   && var uid := s.accounts[login];
                      var held := RolesOf(s.groups, c.tenant, uid);
                      && held != {} && uid != c.user
                      && ("administrators" in held ==> MayLoseAdmin(s, c, uid))
  {
    hide Norm, RoleNames, RolesOf, Members;
    assert SystemRole("file_services");
  }

  /** And what each refusal means. */
  lemma RefusalsMean(s: State, c: Caller, r: Request)
    ensures var why := Refusing(s, c, r);
            var held := RolesOf(s.groups, c.tenant, Target(s, r));
            && (why == Some(NotTenantAdmin) <==> c.user !in Members(s.groups, c.tenant, "administrators"))
            && (why == Some(AdminsUndeletable) ==> r == DeleteRole("administrators"))
            && (why == Some(NoSuchUser) ==> (r.SetUserRoles? || r.RemoveUser?) && r.login !in s.accounts)
            && (why == Some(NotAMember) ==> (r.SetUserRoles? || r.RemoveUser?) && held == {})
            && (why == Some(NoRoles) ==> r.SetUserRoles? && Norm(r.roles) == {})
            && (why == Some(SystemRoleRefused) ==>
                  || (r.RemoveMember? && r.role == "file_services")
                  || (r.DeleteRole? && r.role == "file_services")
                  || "file_services" in Added(s, c, r) || (r.CreateUser? && "file_services" in r.roles))
            && (why == Some(UnknownRole) ==>
                  || (r.SetUserRoles? && !(Norm(r.roles) <= RoleNames(s.groups, c.tenant)))
                  || (r.CreateUser? && exists role :: role in r.roles && role !in RoleNames(s.groups, c.tenant)))
            && (why == Some(SelfRemoval) ==> Target(s, r) == c.user)
            && (why == Some(LastAdministrator) ==> |Members(s.groups, c.tenant, "administrators")| <= 1)
  {
    hide Norm, RoleNames, RolesOf, Members;
    assert SystemRole("file_services");
  }

  /** The members of one role after a request, if it runs to the end or to half way. */
  lemma IntendedMembers(s: State, c: Caller, r: Request, tenant: string, role: string)
    requires Refusing(s, c, r) == None
    ensures role == FILE_SERVICES ==>
              && Members(HalfWay(s, c, r), tenant, role) <= Members(s.groups, tenant, role)
              && Members(Intended(s, c, r), tenant, role) <= Members(s.groups, tenant, role)
    ensures TenantAdmin(HalfWay(s, c, r), c) && TenantAdmin(Intended(s, c, r), c)
  {
    PermittedMeans(s, c, r);
    hide Refusing, Added, Dropped, Target;
  }

  lemma BetweenMembers(a: Groups, b: Groups, t: Groups, tenant: string, role: string)
    requires Between(a, b, t)
    ensures Members(t, tenant, role) <= Members(a, tenant, role) + Members(b, tenant, role)
    ensures Members(a, tenant, role) * Members(b, tenant, role) <= Members(t, tenant, role)
  {
  }

  /** Nobody gains a system role. */
  lemma NoSystemRoleGained(s: State, c: Caller, r: Request, o: Outcome, t: State, tenant: string)
    requires Next(s, c, r, o, t)
    ensures Members(t.groups, tenant, FILE_SERVICES) <= Members(s.groups, tenant, FILE_SERVICES)
  {
    hide HalfWay, Intended, Between, Refusing, Idle, Members, Possible;
    if o.Applied? || o.DirectoryFailed? {
      IntendedMembers(s, c, r, tenant, FILE_SERVICES);
      if o.DirectoryFailed? {
        if Between(s.groups, HalfWay(s, c, r), t.groups) {
          BetweenMembers(s.groups, HalfWay(s, c, r), t.groups, tenant, FILE_SERVICES);
        } else {
          BetweenMembers(HalfWay(s, c, r), Intended(s, c, r), t.groups, tenant, FILE_SERVICES);
        }
      }
    }
  }

  /** An administrator's own request never ends that administrator's membership. */
  lemma CallerStaysAdmin(s: State, c: Caller, r: Request, o: Outcome, t: State)
    requires Next(s, c, r, o, t) && TenantAdmin(s.groups, c)
    ensures TenantAdmin(t.groups, c)
  {
    hide HalfWay, Intended, Between, Refusing, Idle, Members, Possible;
    if o.Applied? || o.DirectoryFailed? {
      IntendedMembers(s, c, r, c.tenant, ADMINS);
      if o.DirectoryFailed? {
        if Between(s.groups, HalfWay(s, c, r), t.groups) {
          BetweenMembers(s.groups, HalfWay(s, c, r), t.groups, c.tenant, ADMINS);
        } else {
          BetweenMembers(HalfWay(s, c, r), Intended(s, c, r), t.groups, c.tenant, ADMINS);
        }
      }
    }
  }

  /** A group that has administrators keeps at least one. */
  lemma AdminsStay(s: State, c: Caller, r: Request, o: Outcome, t: State, tenant: string)
    requires Next(s, c, r, o, t) && Members(s.groups, tenant, ADMINS) != {}
    ensures Members(t.groups, tenant, ADMINS) != {}
  {
    hide HalfWay, Intended, Between, Idle, Possible;
    StaysInTenant(s, c, r, o, t);
    if tenant == c.tenant && TenantAdmin(s.groups, c) { CallerStaysAdmin(s, c, r, o, t); }
  }

  /** The last-administrator guard stops nothing that could have happened: the caller is an
      administrator and may not be the target, so where the guard fires the target was not an
      administrator, and the request was to take that membership from somebody without it. */
  lemma LastAdministratorMeans(s: State, c: Caller, r: Request)
    requires Refusing(s, c, r) == Some(LastAdministrator)
    ensures r.RemoveMember? && r.role == ADMINS && r.uid !in Members(s.groups, c.tenant, ADMINS)
    ensures Members(s.groups, c.tenant, ADMINS) == {c.user}
  {
    hide Norm, RoleNames;
    var admins := Members(s.groups, c.tenant, ADMINS);
    OneElement(admins, c.user);
    HeldIsNamed(s.groups, c.tenant, Target(s, r), ADMINS);
  }

  lemma OneElement(a: set<string>, x: string)
    requires x in a
    ensures |a| <= 1 ==> a == {x}
  {
    if |a| <= 1 {
      assert |a - {x}| == 0;
      assert a == {x} + (a - {x});
    }
  }

  /** Groups change only under an accepted record; with auditing on that record was made while
      they still were as before, and with auditing off nothing is ever recorded. In both modes a
      request that is refused, or whose record is, leaves everything as it was. */
  lemma RecordedFirst(s: State, c: Caller, r: Request, o: Outcome, t: State)
    requires Next(s, c, r, o, t)
    ensures t.groups != s.groups ==> (t.audit == s.audit + [Record(c, r, s.groups)] <==> s.auditing)
    ensures !s.auditing ==> t.audit == s.audit && !o.AuditDown?
    ensures o.Refused? || o.AuditDown? ==> t == s
    ensures s.audit <= t.audit && t.auditing == s.auditing
  {
    hide Refusing, Possible, Between, Added, Dropped;
    if Idle(s, c, r) { GrantNone(s.groups, c.tenant, Target(s, r)); }
  }

  // ---------------------------------------------------------------- what a request achieves

  lemma RolesAfter(s: State, c: Caller, r: Request, tenant: string, uid: string)
    requires !r.CreateRole? && !r.DeleteRole?
    ensures var before, after := RolesOf(s.groups, tenant, uid), RolesOf(Intended(s, c, r), tenant, uid);
            if tenant == c.tenant && uid == Target(s, r)
            then after == before + (Added(s, c, r) * RoleNames(s.groups, tenant)) - Dropped(s, c, r)
            else after == before
  {
    hide Added, Dropped, Target, Possible;
    var before, after := RolesOf(s.groups, tenant, uid), RolesOf(Intended(s, c, r), tenant, uid);
    forall role
      ensures role in after <==>
                if tenant == c.tenant && uid == Target(s, r)
                then (role in before || (role in Added(s, c, r) && role in RoleNames(s.groups, tenant)))
                      && role !in Dropped(s, c, r)
                else role in before
    {
      HeldIsNamed(s.groups, tenant, uid, role);
      HeldIsNamed(Intended(s, c, r), tenant, uid, role);
      NamedIsThere(s.groups, tenant, role);
    }
  }

  lemma NamedIsThere(groups: Groups, tenant: string, role: string)
    ensures role in RoleNames(groups, tenant) <==> Group(tenant, role) in groups
  {
    if Group(tenant, role) in groups { assert Group(tenant, role).role == role; }
  }

  /** An update that is answered with success leaves the member with exactly the wanted roles, a
      removal with none, and a creation with the named roles on top of what was held; nobody
      else's roles change, in this tenant or another. */
  lemma SuccessIsExact(s: State, c: Caller, r: Request, t: State, tenant: string, uid: string)
    requires Next(s, c, r, Applied, t) && (r.SetUserRoles? || r.RemoveUser? || r.CreateUser?)
    ensures var before, after := RolesOf(s.groups, tenant, uid), RolesOf(t.groups, tenant, uid);
            if tenant == c.tenant && uid == Target(s, r) then
              after == match r
                       case SetUserRoles(_, roles) => Norm(roles)
                       case RemoveUser(_) => {}
                       case CreateUser(_, roles) => before + Elements(roles)
                       case _ => before
            else after == before
    ensures r.CreateUser? ==> Target(s, r) == if r.email in s.accounts then s.accounts[r.email] else r.email
    ensures !r.CreateUser? ==> r.login in s.accounts && Target(s, r) == s.accounts[r.login]
  {
    RolesAfter(s, c, r, tenant, uid);
    hide Norm, RolesOf, RoleNames, Intended;
    HeldAreNamed(s.groups, tenant, uid);
  }

  /** What a request about one role does when it is answered with success, to the groups and to
      nothing else. */
  lemma RoleRequestsAreExact(s: State, c: Caller, r: Request, t: State)
    requires Next(s, c, r, Applied, t) && (r.CreateRole? || r.DeleteRole? || r.AddMember? || r.RemoveMember?)
    ensures var g := Group(c.tenant, r.role);
            match r
            case CreateRole(_) => g !in s.groups && t.groups == s.groups[g := {}]
            case DeleteRole(_) => g in s.groups && t.groups == s.groups - {g}
            case AddMember(_, uid) =>
              g in s.groups && uid !in s.groups[g] && t.groups == s.groups[g := s.groups[g] + {uid}]
            case RemoveMember(_, uid) =>
              g in s.groups && uid in s.groups[g] && t.groups == s.groups[g := s.groups[g] - {uid}]
            case _ => true
    ensures t.accounts == s.accounts
  {
    hide Refusing;
    var g := Group(c.tenant, r.role);
    NamedIsThere(s.groups, c.tenant, r.role);
    if r.CreateRole? {
      GrantNone(s.groups[g := {}], c.tenant, "");
    } else if r.DeleteRole? {
      GrantNone(s.groups - {g}, c.tenant, "");
    } else if r.AddMember? {
      HeldIsNamed(s.groups, c.tenant, r.uid, r.role);
      GrantNone(Granting(s.groups, c.tenant, {r.role}, r.uid), c.tenant, r.uid);
      assert t.groups == Granting(s.groups, c.tenant, {r.role}, r.uid);
    } else {
      HeldIsNamed(s.groups, c.tenant, r.uid, r.role);
      GrantNone(s.groups, c.tenant, r.uid);
      assert t.groups == Dropping(s.groups, c.tenant, {r.role}, r.uid);
    }
  }

  /** An invitation that is permitted, recorded and answered by the directory at every write
      succeeds exactly if no role is named twice outside those already held, and a newcomer holds
      none of the named ones. */
  lemma InvitationSucceedsIff(s: State, c: Caller, email: string, roles: seq<string>, o: Outcome, t: State)
    requires Completes(s, c, CreateUser(email, roles), o, t) && Refusing(s, c, CreateUser(email, roles)) == None
    ensures var held := RolesOf(s.groups, c.tenant, Target(s, CreateUser(email, roles)));
            o == Applied <==>
              && (forall i, j :: 0 <= i < j < |roles| && roles[i] == roles[j] ==>
                    email in s.accounts && roles[i] in held)
              && (email !in s.accounts ==> forall role :: role in roles ==> role !in held)
  {
    hide Refusing, Stopped, RolesOf;
  }

  /** Where it fails it has been half carried out: the account is there, and the user has the
      roles up to the first addition that repeats one before it or adds one already held. */
  lemma InvitationStops(s: State, c: Caller, email: string, roles: seq<string>, o: Outcome, t: State) returns (n: nat)
    requires Completes(s, c, CreateUser(email, roles), o, t) && o == DirectoryFailed
    ensures var add := ToAdd(s, c, email, roles);
            var uid := Target(s, CreateUser(email, roles));
            && n < |add| && (add[n] in add[..n] || add[n] in RolesOf(s.groups, c.tenant, uid))
            && (forall i :: 0 <= i < n ==> add[i] !in add[..i] && add[i] !in RolesOf(s.groups, c.tenant, uid))
            && t.groups == Granting(s.groups, c.tenant, Elements(add[..n]), uid)
            && email in t.accounts && t.accounts[email] == uid
  {
    hide Refusing, Reach, Granting, RolesOf, RoleNames;
    var r := CreateUser(email, roles);
    var add, uid := ToAdd(s, c, email, roles), Target(s, r);
    n := Reach(true, s.groups, c.tenant, add, uid, 0);
    NamesAreKnown(s, c, email, roles);
    ReachAll(true, s.groups, c.tenant, add, uid);
    assert Elements(add) <= RoleNames(s.groups, c.tenant);
    assert n < |add|;
    assert t.groups == Granting(s.groups, c.tenant, Elements(add[..n]), uid);
    assert !Fits(true, s.groups, c.tenant, add, uid, n);
    assert add[n] in Elements(add);
    forall i | 0 <= i < n ensures add[i] !in add[..i] && add[i] !in RolesOf(s.groups, c.tenant, uid) {
      assert Fits(true, s.groups, c.tenant, add, uid, i);
    }
  }

  /** An invitation naming a role twice does fail so, after the account and the role are there. */
  lemma RepeatedRoleFails(s: State, c: Caller, email: string, role: string, o: Outcome, t: State)
    requires TenantAdmin(s.groups, c) && role in RoleNames(s.groups, c.tenant) && !SystemRole(role)
    requires email !in s.accounts && RolesOf(s.groups, c.tenant, email) == {}
    requires Completes(s, c, CreateUser(email, [role, role]), o, t)
    ensures o == DirectoryFailed && t.accounts == s.accounts[email := email]
    ensures t.groups == Granting(s.groups, c.tenant, {role}, email)
  {
    hide Reach, Granting, RolesOf, RoleNames;
    var roles := [role, role];
    assert roles[0] == roles[1];
    InvitationSucceedsIff(s, c, email, roles, o, t);
    var n := InvitationStops(s, c, email, roles, o, t);
    assert roles[..0] == [] && roles[..1] == [role] && Elements([role]) == {role};
    assert n == 1;
  }

  lemma HeldAreNamed(groups: Groups, tenant: string, uid: string)
    ensures RolesOf(groups, tenant, uid) <= RoleNames(groups, tenant)
  {
  }

  // ---------------------------------------------------------------- runs

  datatype Happening = Happening(caller: Caller, request: Request, outcome: Outcome, after: State)

  function After(s: State, hs: seq<Happening>): State {
    if hs == [] then s else hs[|hs| - 1].after
  }

  predicate IsRun(s: State, hs: seq<Happening>) {
    forall i :: 0 <= i < |hs| ==> Next(After(s, hs[..i]), hs[i].caller, hs[i].request, hs[i].outcome, hs[i].after)
  }

  lemma RunPrefix(s: State, hs: seq<Happening>)
    requires IsRun(s, hs) && hs != []
    ensures IsRun(s, hs[..|hs| - 1])
    ensures var last := hs[|hs| - 1];
            Next(After(s, hs[..|hs| - 1]), last.caller, last.request, last.outcome, last.after)
  {
    hide Next;
    forall i | 0 <= i < |hs| - 1 ensures hs[..|hs| - 1][..i] == hs[..i] {
    }
  }

  /** Over any run: a tenant that had an administrator has one; nobody gained a system role;
      the tenants in whose name nobody called are as they were; and if the groups differ at all,
      an accepted record holds the groups as they were at the start exactly if there is auditing,
      without which nothing has been recorded. */
  lemma {:induction false} RunSafety(s: State, hs: seq<Happening>, tenant: string)
    requires IsRun(s, hs)
    ensures var t := After(s, hs);
            && (Members(s.groups, tenant, ADMINS) != {} ==> Members(t.groups, tenant, ADMINS) != {})
            && Members(t.groups, tenant, FILE_SERVICES) <= Members(s.groups, tenant, FILE_SERVICES)
            && ((forall h :: h in hs ==> h.caller.tenant != tenant) ==> TenantSame(s.groups, t.groups, tenant))
            && s.audit <= t.audit
            && t.auditing == s.auditing && (!s.auditing ==> t.audit == s.audit)
            && (t.groups != s.groups ==>
                  (s.auditing <==> exists i :: |s.audit| <= i < |t.audit| && t.audit[i].groups == s.groups))
  {
    hide Next, Members, IsRun;
    if hs != [] {
      var rest, last := hs[..|hs| - 1], hs[|hs| - 1];
      RunPrefix(s, hs);
      RunSafety(s, rest, tenant);
      var m := After(s, rest);
      StepSafety(m, last, tenant);
      assert forall h :: h in rest ==> h in hs;
      assert last in hs;
      if s.auditing && m.groups == s.groups && last.after.groups != s.groups {
        assert last.after.audit[|m.audit|].groups == s.groups;
      }
    }
  }

  predicate TenantSame(a: Groups, b: Groups, tenant: string) {
    && (forall g :: g in a && g.tenant == tenant ==> g in b && b[g] == a[g])
    && (forall g :: g in b && g.tenant == tenant ==> g in a)
  }

  lemma StepSafety(s: State, h: Happening, tenant: string)
    requires Next(s, h.caller, h.request, h.outcome, h.after)
    ensures var t := h.after;
            && (Members(s.groups, tenant, ADMINS) != {} ==> Members(t.groups, tenant, ADMINS) != {})
            && Members(t.groups, tenant, FILE_SERVICES) <= Members(s.groups, tenant, FILE_SERVICES)
            && (h.caller.tenant != tenant ==> TenantSame(s.groups, t.groups, tenant))
            && s.audit <= t.audit
            && t.auditing == s.auditing && (!s.auditing ==> t.audit == s.audit)
            && (t.groups != s.groups && s.auditing ==> t.audit == s.audit + [Record(h.caller, h.request, s.groups)])
  {
    hide Next, Members;
    var t := h.after;
    if Members(s.groups, tenant, ADMINS) != {} { AdminsStay(s, h.caller, h.request, h.outcome, t, tenant); }
    NoSystemRoleGained(s, h.caller, h.request, h.outcome, t, tenant);
    StaysInTenant(s, h.caller, h.request, h.outcome, t);
    RecordedFirst(s, h.caller, h.request, h.outcome, t);
  }

  /** As long as nobody else calls, an administrator stays one. */
  lemma {:induction false} OwnRequestsKeepAdmin(s: State, hs: seq<Happening>, c: Caller)
    requires IsRun(s, hs) && TenantAdmin(s.groups, c) && forall h :: h in hs ==> h.caller == c
    ensures TenantAdmin(After(s, hs).groups, c)
  {
    hide Next, TenantAdmin, IsRun;
    if hs != [] {
      var rest, last := hs[..|hs| - 1], hs[|hs| - 1];
      RunPrefix(s, hs);
      assert last in hs;
      OwnRequestsKeepAdmin(s, rest, c);
      CallerStaysAdmin(After(s, rest), c, last.request, last.outcome, last.after);
    }
  }
}
