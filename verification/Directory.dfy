/** Tenant administration of roles: the groups in the directory, the requests a tenant
    administrator can make, and the write-ahead audit record of each. The directory may fail at
    any write, so a request that makes several writes may stop half way. Names and uids are
    exact keys, and requests run one at a time. */
module Directory {
  import opened Text

  const ADMINS: string := "administrators"
  const FILE_SERVICES: string := "file_services"

  predicate SystemRole(role: string) {
    role == FILE_SERVICES
  }

  datatype Group = Group(tenant: string, role: string)

  type Groups = map<Group, set<string>>

  function Members(groups: Groups, tenant: string, role: string): set<string> {
    if Group(tenant, role) in groups then groups[Group(tenant, role)] else {}
  }

  function RoleNames(groups: Groups, tenant: string): set<string> {
    set g | g in groups && g.tenant == tenant :: g.role
  }

  function RolesOf(groups: Groups, tenant: string, uid: string): set<string> {
    set g | g in groups && g.tenant == tenant && uid in groups[g] :: g.role
  }

  /** The groups with a user put into, or taken out of, some roles of one tenant. */
  function Granting(groups: Groups, tenant: string, roles: set<string>, uid: string): Groups {
    map g | g in groups :: if g.tenant == tenant && g.role in roles then groups[g] + {uid} else groups[g]
  }

  function Dropping(groups: Groups, tenant: string, roles: set<string>, uid: string): Groups {
    map g | g in groups :: if g.tenant == tenant && g.role in roles then groups[g] - {uid} else groups[g]
  }

  // ---------------------------------------------------------------- requests

  datatype Caller = Caller(user: string, tenant: string)

  datatype Request =
    | CreateRole(role: string)
    | DeleteRole(role: string)
    | AddMember(role: string, uid: string)
    | RemoveMember(role: string, uid: string)
    | CreateUser(email: string, roles: seq<string>)
    | SetUserRoles(login: string, roles: seq<string>)
    | RemoveUser(login: string)

  datatype Refusal =
    | NotTenantAdmin
    | AdminsUndeletable | SystemRoleRefused
    | SelfRemoval | LastAdministrator
    | UnknownRole | NoSuchUser | NotAMember | NoRoles

  /** An accepted audit record, with the groups as they were when it was accepted. */
  datatype Record = Record(caller: Caller, request: Request, groups: Groups)

  /** The directory: the groups, and which uid each login name (uid or mail) belongs to; the
      accepted records; and whether there is auditing at all. Without it every record is accepted
      and none is kept. */
  datatype State = State(groups: Groups, accounts: map<string, string>, audit: seq<Record>, auditing: bool)

  predicate TenantAdmin(groups: Groups, c: Caller) {
    c.user in Members(groups, c.tenant, ADMINS)
  }

  function Elements(roles: seq<string>): set<string> {
    set r | r in roles
  }

  /** The guard wherever somebody can lose `administrators`. */
  function AdminGuard(groups: Groups, c: Caller, uid: string): Option<Refusal> {
    if uid == c.user then Some(SelfRemoval)
    else if |Members(groups, c.tenant, ADMINS)| <= 1 then Some(LastAdministrator)
    else None
  }

  /** Why a request is turned away before anything is recorded or written, if it is. */
  function Refusing(s: State, c: Caller, r: Request): Option<Refusal> {
    if !TenantAdmin(s.groups, c) then Some(NotTenantAdmin)
    else
      match r
      case CreateRole(_) => None
      case DeleteRole(role) =>
        if role == ADMINS then Some(AdminsUndeletable) else if SystemRole(role) then Some(SystemRoleRefused) else None
      case AddMember(role, _) => if SystemRole(role) then Some(SystemRoleRefused) else None
      case RemoveMember(role, uid) =>
        if SystemRole(role) then Some(SystemRoleRefused)
        else if role == ADMINS then AdminGuard(s.groups, c, uid) else None
      case CreateUser(_, roles) =>
        if !(Elements(roles) <= RoleNames(s.groups, c.tenant)) then Some(UnknownRole)
        else if exists role :: role in roles && SystemRole(role) then Some(SystemRoleRefused) else None
      case SetUserRoles(login, roles) => RefusingSet(s, c, login, Norm(roles))
      case RemoveUser(login) =>
        if login !in s.accounts then Some(NoSuchUser)
        else
          var uid := s.accounts[login];
          var held := RolesOf(s.groups, c.tenant, uid);
          if uid == c.user then Some(SelfRemoval)
          else if held == {} then Some(NotAMember)
          else if ADMINS in held then AdminGuard(s.groups, c, uid) else None
  }

  function RefusingSet(s: State, c: Caller, login: string, wanted: set<string>): Option<Refusal> {
    if login !in s.accounts then Some(NoSuchUser)
    else
      var uid := s.accounts[login];
      var held := RolesOf(s.groups, c.tenant, uid);
      if held == {} then Some(NotAMember)
      else if !(wanted <= RoleNames(s.groups, c.tenant)) then Some(UnknownRole)
      else if wanted == {} then Some(NoRoles)
      else if exists role :: role in wanted - held && SystemRole(role) then Some(SystemRoleRefused)
      else if ADMINS in held - wanted then AdminGuard(s.groups, c, uid)
      else None
  }

  /** The uid whose roles a request is about. */
  function Target(s: State, r: Request): string {
    match r
    case CreateUser(email, _) => if email in s.accounts then s.accounts[email] else email
    case SetUserRoles(login, _) => if login in s.accounts then s.accounts[login] else login
    case RemoveUser(login) => if login in s.accounts then s.accounts[login] else login
    case AddMember(_, uid) => uid
    case RemoveMember(_, uid) => uid
    case _ => ""
  }

  function Added(s: State, c: Caller, r: Request): set<string> {
    var held := RolesOf(s.groups, c.tenant, Target(s, r));
    match r
    case AddMember(role, _) => {role}
    case CreateUser(email, roles) => if email in s.accounts then Elements(roles) - held else Elements(roles)
    case SetUserRoles(_, roles) => Norm(roles) - held
    case _ => {}
  }

  function Dropped(s: State, c: Caller, r: Request): set<string> {
    var held := RolesOf(s.groups, c.tenant, Target(s, r));
    match r
    case RemoveMember(role, _) => {role}
    case SetUserRoles(_, roles) => held - Norm(roles)
    case RemoveUser(_) => held
    case _ => {}
  }

  /** What the directory itself insists on: no role is made twice, nobody is added to a role they
      hold or removed from one they do not. */
  predicate Possible(s: State, c: Caller, r: Request) {
    match r
    case CreateRole(role) => Group(c.tenant, role) !in s.groups
    case DeleteRole(role) => Group(c.tenant, role) in s.groups
    case AddMember(role, uid) => role in RoleNames(s.groups, c.tenant) && role !in RolesOf(s.groups, c.tenant, uid)
    case RemoveMember(role, uid) => role in RolesOf(s.groups, c.tenant, uid)
    case CreateUser(email, roles) =>
      var held := RolesOf(s.groups, c.tenant, Target(s, r));
      if email in s.accounts then RepeatsOnly(roles, held) else RepeatsOnly(roles, {}) && Elements(roles) !! held
    case _ => true
  }

  /** No role is named twice, except some that do not matter. */
  predicate RepeatsOnly(roles: seq<string>, held: set<string>) {
    forall i, j :: 0 <= i < j < |roles| && roles[i] == roles[j] ==> roles[i] in held
  }

  /** The groups after everything a request adds, and after everything it does. */
  function HalfWay(s: State, c: Caller, r: Request): Groups {
    match r
    case CreateRole(role) => if Possible(s, c, r) then s.groups[Group(c.tenant, role) := {}] else s.groups
    case DeleteRole(role) => s.groups - {Group(c.tenant, role)}
    case _ => Granting(s.groups, c.tenant, Added(s, c, r), Target(s, r))
  }

  function Intended(s: State, c: Caller, r: Request): Groups {
    Dropping(HalfWay(s, c, r), c.tenant, Dropped(s, c, r), Target(s, r))
  }

  /** A role update that changes nothing is answered without being recorded. */
  predicate Idle(s: State, c: Caller, r: Request) {
    r.SetUserRoles? && Added(s, c, r) == {} && Dropped(s, c, r) == {}
  }

  // ---------------------------------------------------------------- what a request may do

  datatype Outcome = Refused(why: Refusal) | AuditDown | DirectoryFailed | Applied

  /** Group by group, some of the way from `a` to `b`. */
  predicate Between(a: Groups, b: Groups, t: Groups) {
    && (forall g :: g in t ==> (g in a && t[g] == a[g]) || (g in b && t[g] == b[g]))
    && (forall g :: g in a && g in b ==> g in t)
  }

  /** An invitation makes an account for an address that has none. */
  function AccountsAfter(s: State, r: Request): map<string, string> {
    if r.CreateUser? && r.email !in s.accounts then s.accounts[r.email := r.email] else s.accounts
  }

  /** The audit log after a record has been accepted. */
  function Recorded(s: State, c: Caller, r: Request): seq<Record> {
    if s.auditing then s.audit + [Record(c, r, s.groups)] else s.audit
  }

  /** What a request may do: be refused, with nothing recorded and nothing changed; find the
      audit log down, with nothing changed; or, with its record accepted while the groups still
      were what they had been, change the groups as intended, or stop on the way there. */
  predicate Next(s: State, c: Caller, r: Request, o: Outcome, t: State) {
    match o
    case Refused(why) => Refusing(s, c, r) == Some(why) && t == s
    case AuditDown => Refusing(s, c, r) == None && !Idle(s, c, r) && s.auditing && t == s
    case Applied =>
      && Refusing(s, c, r) == None && Possible(s, c, r)
      && t.groups == Intended(s, c, r) && t.accounts == AccountsAfter(s, r) && t.auditing == s.auditing
      && t.audit == if Idle(s, c, r) then s.audit else Recorded(s, c, r)
    case DirectoryFailed =>
      && Refusing(s, c, r) == None && !Idle(s, c, r)
      && (t.accounts == s.accounts || t.accounts == AccountsAfter(s, r)) && t.auditing == s.auditing
      && t.audit == Recorded(s, c, r)
      && (Between(s.groups, HalfWay(s, c, r), t.groups) || Between(HalfWay(s, c, r), Intended(s, c, r), t.groups))
  }

  // ---------------------------------------------------------------- when nothing gets in the way

  /** The roles of an existing account are not added again. */
  function Lacking(roles: seq<string>, held: set<string>): (add: seq<string>)
    ensures Elements(add) == Elements(roles) - held
    ensures RepeatsOnly(add, {}) <==> RepeatsOnly(roles, held)
  {
    if roles == [] then []
    else
      var rest := Lacking(roles[..|roles| - 1], held);
      RepeatsGrow(roles, |roles| - 1, held);
      RepeatsAppend(rest, roles[|roles| - 1]);
      assert roles == roles[..|roles| - 1] + [roles[|roles| - 1]];
      assert Elements(rest + [roles[|roles| - 1]]) == Elements(rest) + {roles[|roles| - 1]};
      if roles[|roles| - 1] in held then rest else rest + [roles[|roles| - 1]]
  }

  /** The additions of an invitation, in the order in which they are made. */
  function ToAdd(s: State, c: Caller, email: string, roles: seq<string>): seq<string> {
    if email in s.accounts then Lacking(roles, RolesOf(s.groups, c.tenant, s.accounts[email])) else roles
  }

  /** The directory takes the `i`-th write of a series: the role is there, and the user is not in
      it, or for a removal is, and not by an earlier write of the series. */
  predicate Fits(adding: bool, groups: Groups, tenant: string, roles: seq<string>, uid: string, i: nat)
    requires i < |roles|
  {
    && roles[i] !in Elements(roles[..i])
    && if adding then roles[i] in RoleNames(groups, tenant) && roles[i] !in RolesOf(groups, tenant, uid)
       else roles[i] in RolesOf(groups, tenant, uid)
  }

  /** How far a series of writes gets. */
  function Reach(adding: bool, groups: Groups, tenant: string, roles: seq<string>, uid: string, from: nat): (n: nat)
    requires from <= |roles|
    ensures from <= n <= |roles|
    ensures forall i :: from <= i < n ==> Fits(adding, groups, tenant, roles, uid, i)
    ensures n < |roles| ==> !Fits(adding, groups, tenant, roles, uid, n)
    decreases |roles| - from
  {
    if from < |roles| && Fits(adding, groups, tenant, roles, uid, from)
    then Reach(adding, groups, tenant, roles, uid, from + 1) else from
  }

  /** The groups a failing request leaves behind when the directory answers every write. */
  function Stopped(s: State, c: Caller, r: Request): Groups {
    match r
    case CreateUser(email, roles) =>
      var add := ToAdd(s, c, email, roles);
      Granting(s.groups, c.tenant, Elements(add[..Reach(true, s.groups, c.tenant, add, Target(s, r), 0)]), Target(s, r))
    case _ => s.groups
  }

  /** What a request does when its record is accepted and the directory answers every write: it
      is refused, or carried out exactly if the directory can take all of it; an invitation that
      it cannot take leaves the account and the roles it got to. */
  predicate Completes(s: State, c: Caller, r: Request, o: Outcome, t: State) {
    && (o.Refused? <==> Refusing(s, c, r).Some?)
    && (o == Applied <==> Refusing(s, c, r) == None && Possible(s, c, r))
    && (o == DirectoryFailed <==> Refusing(s, c, r) == None && !Possible(s, c, r))
    && (o == DirectoryFailed ==> t.groups == Stopped(s, c, r) && t.accounts == AccountsAfter(s, r))
  }

  lemma RepeatsAppend(add: seq<string>, role: string)
    ensures RepeatsOnly(add + [role], {}) <==> RepeatsOnly(add, {}) && role !in Elements(add)
  {
    var more := add + [role];
    if RepeatsOnly(more, {}) {
      forall i, j | 0 <= i < j < |add| ensures add[i] != add[j] { assert more[i] == add[i] && more[j] == add[j]; }
      forall i | 0 <= i < |add| ensures add[i] != role { assert more[i] == add[i] && more[|add|] == role; }
    }
  }

  lemma RepeatsGrow(roles: seq<string>, n: nat, held: set<string>)
    requires n < |roles|
    ensures RepeatsOnly(roles[..n + 1], held) <==>
            RepeatsOnly(roles[..n], held) && roles[n] !in Elements(roles[..n]) - held
  {
    var less, more := roles[..n], roles[..n + 1];
    if RepeatsOnly(more, held) {
      forall i, j | 0 <= i < j < |less| && less[i] == less[j] ensures less[i] in held {
        assert more[i] == less[i] && more[j] == less[j];
      }
      if roles[n] in Elements(less) {
        var i :| 0 <= i < |less| && less[i] == roles[n];
        assert more[i] == more[n];
      }
    }
  }

  lemma ReachIs(adding: bool, groups: Groups, tenant: string, roles: seq<string>, uid: string, n: nat)
    requires n < |roles| && !Fits(adding, groups, tenant, roles, uid, n)
    requires forall i :: 0 <= i < n ==> Fits(adding, groups, tenant, roles, uid, i)
    ensures Reach(adding, groups, tenant, roles, uid, 0) == n
  {
    hide Fits, Reach;
  }

  /** A series gets through exactly if no role is named twice and every role fits. */
  lemma ReachAll(adding: bool, groups: Groups, tenant: string, roles: seq<string>, uid: string)
    ensures Reach(adding, groups, tenant, roles, uid, 0) == |roles| <==>
              && RepeatsOnly(roles, {})
              && if adding
                 then Elements(roles) <= RoleNames(groups, tenant) && Elements(roles) !! RolesOf(groups, tenant, uid)
                 else Elements(roles) <= RolesOf(groups, tenant, uid)
  {
    hide RoleNames, RolesOf, Reach;
    var n := Reach(adding, groups, tenant, roles, uid, 0);
    if n == |roles| {
      forall i, j | 0 <= i < j < |roles| ensures roles[i] != roles[j] {
        assert Fits(adding, groups, tenant, roles, uid, j);
        assert roles[..j][i] == roles[i];
      }
      forall role | role in Elements(roles)
        ensures if adding then role in RoleNames(groups, tenant) && role !in RolesOf(groups, tenant, uid)
                else role in RolesOf(groups, tenant, uid)
      {
        var i :| 0 <= i < |roles| && roles[i] == role;
        assert Fits(adding, groups, tenant, roles, uid, i);
      }
    } else {
      assert !Fits(adding, groups, tenant, roles, uid, n);
      if roles[n] in Elements(roles[..n]) {
        var i :| 0 <= i < n && roles[..n][i] == roles[n];
        assert roles[i] == roles[n];
      }
      assert roles[n] in Elements(roles);
    }
  }

  // ---------------------------------------------------------------- several writes in a row

  lemma GrantNone(groups: Groups, tenant: string, uid: string)
    ensures Granting(groups, tenant, {}, uid) == groups && Dropping(groups, tenant, {}, uid) == groups
  {
  }

  lemma GrantOneMore(groups: Groups, tenant: string, done: set<string>, role: string, uid: string)
    requires Group(tenant, role) in groups
    ensures var before := Granting(groups, tenant, done, uid);
            Granting(groups, tenant, done + {role}, uid)
            == before[Group(tenant, role) := before[Group(tenant, role)] + {uid}]
  {
  }

  lemma DropOneMore(groups: Groups, tenant: string, done: set<string>, role: string, uid: string)
    requires Group(tenant, role) in groups
    ensures var before := Dropping(groups, tenant, done, uid);
            Dropping(groups, tenant, done + {role}, uid)
            == before[Group(tenant, role) := before[Group(tenant, role)] - {uid}]
  {
    var before, after := Dropping(groups, tenant, done, uid), Dropping(groups, tenant, done + {role}, uid);
    var g := Group(tenant, role);
    assert after[g] == before[g] - {uid};
    assert forall h :: h in groups && h != g ==> after[h] == before[h];
  }

  lemma PartWay(groups: Groups, tenant: string, done: set<string>, all: set<string>, uid: string)
    requires done <= all
    ensures Between(groups, Granting(groups, tenant, all, uid), Granting(groups, tenant, done, uid))
    ensures Between(groups, Dropping(groups, tenant, all, uid), Dropping(groups, tenant, done, uid))
  {
  }

  lemma ElementsOfPrefix(roles: seq<string>, i: nat)
    requires i < |roles|
    ensures Elements(roles[..i + 1]) == Elements(roles[..i]) + {roles[i]}
    ensures Elements(roles[..i + 1]) <= Elements(roles)
  {
    assert roles[..i + 1] == roles[..i] + [roles[i]];
  }

  lemma SameKeys(groups: Groups, tenant: string, roles: set<string>, uid: string)
    ensures forall g :: g in Granting(groups, tenant, roles, uid) <==> g in groups
    ensures forall g :: g in Dropping(groups, tenant, roles, uid) <==> g in groups
  {
  }

  /** Part way through a series, the directory takes the next write exactly if it fits. */
  lemma GrantFits(groups: Groups, tenant: string, done: set<string>, role: string, uid: string)
    ensures var now, g := Granting(groups, tenant, done, uid), Group(tenant, role);
            g in now && uid !in now[g] <==>
              role !in done && role in RoleNames(groups, tenant) && role !in RolesOf(groups, tenant, uid)
  {
    if Group(tenant, role) in groups { assert Group(tenant, role).role == role; }
  }

  lemma DropFits(groups: Groups, tenant: string, done: set<string>, role: string, uid: string)
    ensures var now, g := Dropping(groups, tenant, done, uid), Group(tenant, role);
            g in now && uid in now[g] <==> role !in done && role in RolesOf(groups, tenant, uid)
  {
    if Group(tenant, role) in groups { assert Group(tenant, role).role == role; }
  }

  /** How the directory answers a write. If its answer is lost the write may have been made. */
  datatype WriteAnswer = Answered | LostUnwritten | LostWritten

  class Ldap {
    var groups: Groups
    var accounts: map<string, string>
    /** The answers to the coming writes; past their end every write is answered. */
    var answers: seq<WriteAnswer>

    constructor (groups: Groups, accounts: map<string, string>, answers: seq<WriteAnswer>)
      ensures this.groups == groups && this.accounts == accounts && this.answers == answers
    {
      this.groups, this.accounts, this.answers := groups, accounts, answers;
    }

    method Await() returns (a: WriteAnswer)
      modifies this`answers
      ensures old(answers) == [] ==> a == Answered && answers == []
    {
      if answers == [] { return Answered; }
      a := answers[0];
      answers := answers[1..];
    }

    /** A write that the directory cannot take fails and changes nothing; one that it can take is
        answered, or its answer is lost, with or without the change. */
    method AddMember(tenant: string, role: string, uid: string) returns (ok: bool)
      modifies this`groups, this`answers
      ensures var g := Group(tenant, role);
              var can := g in old(groups) && uid !in old(groups)[g];
              && (ok ==> can)
              && ((groups == old(groups) && !ok) || (can && groups == old(groups)[g := old(groups)[g] + {uid}]))
              && (old(answers) == [] ==> answers == [] && (ok <==> can) && (!ok ==> groups == old(groups)))
    {
      var answer := Await();
      var g := Group(tenant, role);
      if g !in groups || uid in groups[g] { return false; }
      if answer != LostUnwritten { groups := groups[g := groups[g] + {uid}]; }
      return answer == Answered;
    }

    method RemoveMember(tenant: string, role: string, uid: string) returns (ok: bool)
      modifies this`groups, this`answers
      ensures var g := Group(tenant, role);
              var can := g in old(groups) && uid in old(groups)[g];
              && (ok ==> can)
              && ((groups == old(groups) && !ok) || (can && groups == old(groups)[g := old(groups)[g] - {uid}]))
              && (old(answers) == [] ==> answers == [] && (ok <==> can) && (!ok ==> groups == old(groups)))
    {
      var answer := Await();
      var g := Group(tenant, role);
      if g !in groups || uid !in groups[g] { return false; }
      if answer != LostUnwritten { groups := groups[g := groups[g] - {uid}]; }
      return answer == Answered;
    }

    /** A role is made once, and empty; a missing one cannot be deleted. */
    method PutRole(tenant: string, role: string, present: bool) returns (ok: bool)
      modifies this`groups, this`answers
      ensures var g := Group(tenant, role);
              var can := g in old(groups) <==> !present;
              && (ok ==> can)
              && (|| (groups == old(groups) && !ok)
                  || (can && groups == if present then old(groups)[g := {}] else old(groups) - {g}))
              && (old(answers) == [] ==> answers == [] && (ok <==> can) && (!ok ==> groups == old(groups)))
    {
      var answer := Await();
      var g := Group(tenant, role);
      if g in groups <==> present { return false; }
      if answer != LostUnwritten { groups := if present then groups[g := {}] else groups - {g}; }
      return answer == Answered;
    }

    method CreateAccount(uid: string) returns (ok: bool)
      requires uid !in accounts
      modifies this`accounts, this`answers
      ensures accounts == old(accounts)[uid := uid] || (!ok && accounts == old(accounts))
      ensures old(answers) == [] ==> answers == [] && ok
    {
      var answer := Await();
      if answer != LostUnwritten { accounts := accounts[uid := uid]; }
      return answer == Answered;
    }
  }

  /** The adding loop: every listed role, or as far as the directory answered. */
  method GrantEach(ldap: Ldap, tenant: string, roles: seq<string>, uid: string) returns (ok: bool)
    modifies ldap`groups, ldap`answers
    ensures var all := Granting(old(ldap.groups), tenant, Elements(roles), uid);
            if ok then ldap.groups == all else Between(old(ldap.groups), all, ldap.groups)
    ensures var n := Reach(true, old(ldap.groups), tenant, roles, uid, 0);
            && (ok ==> n == |roles|)
            && (old(ldap.answers) == [] ==>
                  && ldap.answers == [] && (ok <==> n == |roles|)
                  && ldap.groups == Granting(old(ldap.groups), tenant, Elements(roles[..n]), uid))
  {
    hide Granting, Dropping, Between, RoleNames, RolesOf, Reach;
    ghost var was := ldap.groups;
    GrantNone(was, tenant, uid);
    assert Elements(roles[..0]) == {};
    for i := 0 to |roles|
      invariant ldap.groups == Granting(was, tenant, Elements(roles[..i]), uid)
      invariant forall j :: 0 <= j < i ==> Fits(true, was, tenant, roles, uid, j)
      invariant old(ldap.answers) == [] ==> ldap.answers == []
    {
      ElementsOfPrefix(roles, i);
      PartWay(was, tenant, Elements(roles[..i]), Elements(roles), uid);
      PartWay(was, tenant, Elements(roles[..i + 1]), Elements(roles), uid);
      GrantFits(was, tenant, Elements(roles[..i]), roles[i], uid);
      SameKeys(was, tenant, Elements(roles[..i]), uid);
      if Group(tenant, roles[i]) in was { GrantOneMore(was, tenant, Elements(roles[..i]), roles[i], uid); }
      ok := ldap.AddMember(tenant, roles[i], uid);
      if !ok {
        if old(ldap.answers) == [] { ReachIs(true, was, tenant, roles, uid, i); }
        return false;
      }
    }
    assert roles[..|roles|] == roles;
    return true;
  }

  /** The removing loop, likewise. */
  method DropEach(ldap: Ldap, tenant: string, roles: seq<string>, uid: string) returns (ok: bool)
    modifies ldap`groups, ldap`answers
    ensures var all := Dropping(old(ldap.groups), tenant, Elements(roles), uid);
            if ok then ldap.groups == all else Between(old(ldap.groups), all, ldap.groups)
    ensures var n := Reach(false, old(ldap.groups), tenant, roles, uid, 0);
            && (ok ==> n == |roles|)
            && (old(ldap.answers) == [] ==>
                  && ldap.answers == [] && (ok <==> n == |roles|)
                  && ldap.groups == Dropping(old(ldap.groups), tenant, Elements(roles[..n]), uid))
  {
    hide Granting, Dropping, Between, RoleNames, RolesOf, Reach;
    ghost var was := ldap.groups;
    GrantNone(was, tenant, uid);
    assert Elements(roles[..0]) == {};
    for i := 0 to |roles|
      invariant ldap.groups == Dropping(was, tenant, Elements(roles[..i]), uid)
      invariant forall j :: 0 <= j < i ==> Fits(false, was, tenant, roles, uid, j)
      invariant old(ldap.answers) == [] ==> ldap.answers == []
    {
      ElementsOfPrefix(roles, i);
      PartWay(was, tenant, Elements(roles[..i]), Elements(roles), uid);
      PartWay(was, tenant, Elements(roles[..i + 1]), Elements(roles), uid);
      DropFits(was, tenant, Elements(roles[..i]), roles[i], uid);
      SameKeys(was, tenant, Elements(roles[..i]), uid);
      if Group(tenant, roles[i]) in was { DropOneMore(was, tenant, Elements(roles[..i]), roles[i], uid); }
      ok := ldap.RemoveMember(tenant, roles[i], uid);
      if !ok {
        if old(ldap.answers) == [] { ReachIs(false, was, tenant, roles, uid, i); }
        return false;
      }
    }
    assert roles[..|roles|] == roles;
    return true;
  }

  /** The members of a set, each once. */
  method Listed(roles: set<string>) returns (list: seq<string>)
    ensures Elements(list) == roles && RepeatsOnly(list, {})
  {
    list := [];
    var left := roles;
    while left != {}
      invariant Elements(list) + left == roles && Elements(list) !! left && RepeatsOnly(list, {})
      decreases left
    {
      var role :| role in left;
      assert Elements(list + [role]) == Elements(list) + {role};
      RepeatsAppend(list, role);
      list, left := list + [role], left - {role};
    }
  }

  /** First everything that is to be added, then everything that is to go. */
  method SwapRoles(ldap: Ldap, tenant: string, add: set<string>, drop: set<string>, uid: string) returns (ok: bool)
    requires add <= RoleNames(ldap.groups, tenant) && add !! RolesOf(ldap.groups, tenant, uid)
    requires drop <= RolesOf(ldap.groups, tenant, uid)
    modifies ldap`groups, ldap`answers
    ensures var half := Granting(old(ldap.groups), tenant, add, uid);
            var all := Dropping(half, tenant, drop, uid);
            if ok then ldap.groups == all
            else Between(old(ldap.groups), half, ldap.groups) || Between(half, all, ldap.groups)
    ensures old(ldap.answers) == [] ==> ok
  {
    hide Granting, Dropping, Between, RolesOf, RoleNames, Reach;
    var adds := Listed(add);
    ReachAll(true, ldap.groups, tenant, adds, uid);
    StillHolds(ldap.groups, tenant, add, uid);
    ok := GrantEach(ldap, tenant, adds, uid);
    if !ok { return; }
    var drops := Listed(drop);
    ReachAll(false, ldap.groups, tenant, drops, uid);
    ok := DropEach(ldap, tenant, drops, uid);
  }

  method NotHeld(roles: seq<string>, held: set<string>) returns (add: seq<string>)
    ensures add == Lacking(roles, held)
  {
    add := [];
    for i := 0 to |roles|
      invariant add == Lacking(roles[..i], held)
    {
      assert roles[..i + 1][..i] == roles[..i];
      if roles[i] !in held { add := add + [roles[i]]; }
    }
    assert roles[..|roles|] == roles;
  }

  // ---------------------------------------------------------------- the handlers

  /** `accepts` says whether the audit log takes the request's record. */
  class Administration {
    const ldap: Ldap
    const auditing: bool
    var audit: seq<Record>

    constructor (ldap: Ldap, auditing: bool)
      ensures this.ldap == ldap && this.auditing == auditing && audit == []
    {
      this.ldap := ldap;
      this.auditing := auditing;
      audit := [];
    }

    function Now(): State
      reads this, ldap
    {
      State(ldap.groups, ldap.accounts, audit, auditing)
    }

    method Emit(c: Caller, r: Request, accepts: bool) returns (ok: bool)
      modifies this
      ensures ok == (accepts || !auditing)
      ensures audit == if ok then Recorded(old(Now()), c, r) else old(audit)
    {
      if !auditing { return true; }
      if accepts { audit := audit + [Record(c, r, ldap.groups)]; }
      return accepts;
    }

    /** Nothing gets in the way: the record is accepted and the directory answers every write. */
    predicate Smooth(accepts: bool)
      reads this, ldap
    {
      ldap.answers == [] && (accepts || !auditing)
    }

    method CreateRole(c: Caller, role: string, accepts: bool) returns (o: Outcome)
      modifies this, ldap
      ensures Next(old(Now()), c, Request.CreateRole(role), o, Now())
      ensures old(Smooth(accepts)) ==> Completes(old(Now()), c, Request.CreateRole(role), o, Now())
    {
      var r := Request.CreateRole(role);
      GrantNone(HalfWay(Now(), c, r), c.tenant, "");
      if !TenantAdmin(ldap.groups, c) { return Refused(NotTenantAdmin); }
      var recorded := Emit(c, r, accepts);
      if !recorded { return AuditDown; }
      var ok := ldap.PutRole(c.tenant, role, true);
      return if ok then Applied else DirectoryFailed;
    }

    method DeleteRole(c: Caller, role: string, accepts: bool) returns (o: Outcome)
      modifies this, ldap
      ensures Next(old(Now()), c, Request.DeleteRole(role), o, Now())
      ensures old(Smooth(accepts)) ==> Completes(old(Now()), c, Request.DeleteRole(role), o, Now())
    {
      var r := Request.DeleteRole(role);
      GrantNone(HalfWay(Now(), c, r), c.tenant, "");
      if !TenantAdmin(ldap.groups, c) { return Refused(NotTenantAdmin); }
      if role == ADMINS { return Refused(AdminsUndeletable); }
      if SystemRole(role) { return Refused(SystemRoleRefused); }
      var recorded := Emit(c, r, accepts);
      if !recorded { return AuditDown; }
      var ok := ldap.PutRole(c.tenant, role, false);
      return if ok then Applied else DirectoryFailed;
    }

    method AddMember(c: Caller, role: string, uid: string, accepts: bool) returns (o: Outcome)
      modifies this, ldap
      ensures Next(old(Now()), c, Request.AddMember(role, uid), o, Now())
      ensures old(Smooth(accepts)) ==> Completes(old(Now()), c, Request.AddMember(role, uid), o, Now())
    {
      hide Granting, Dropping, Between, RoleNames, RolesOf;
      if !TenantAdmin(ldap.groups, c) { return Refused(NotTenantAdmin); }
      if SystemRole(role) { return Refused(SystemRoleRefused); }
      var recorded := Emit(c, Request.AddMember(role, uid), accepts);
      if !recorded { return AuditDown; }
      ghost var g0 := ldap.groups;
      assert Elements([role]) == {role};
      assert Elements([role][..0]) == {};
      GrantNone(g0, c.tenant, uid);
      GrantNone(Granting(g0, c.tenant, {role}, uid), c.tenant, uid);
      ReachAll(true, g0, c.tenant, [role], uid);
      var ok := GrantEach(ldap, c.tenant, [role], uid);
      return if ok then Applied else DirectoryFailed;
    }

    method RemoveMember(c: Caller, role: string, uid: string, accepts: bool) returns (o: Outcome)
      modifies this, ldap
      ensures Next(old(Now()), c, Request.RemoveMember(role, uid), o, Now())
      ensures old(Smooth(accepts)) ==> Completes(old(Now()), c, Request.RemoveMember(role, uid), o, Now())
    {
      hide Granting, Dropping, Between, RoleNames, RolesOf;
      if !TenantAdmin(ldap.groups, c) { return Refused(NotTenantAdmin); }
      if SystemRole(role) { return Refused(SystemRoleRefused); }
      if role == ADMINS {
        if uid == c.user { return Refused(SelfRemoval); }
        if |Members(ldap.groups, c.tenant, ADMINS)| <= 1 { return Refused(LastAdministrator); }
      }
      var recorded := Emit(c, Request.RemoveMember(role, uid), accepts);
      if !recorded { return AuditDown; }
      GrantNone(ldap.groups, c.tenant, uid);
      assert Elements([role]) == {role};
      assert Elements([role][..0]) == {};
      ReachAll(false, ldap.groups, c.tenant, [role], uid);
      var ok := DropEach(ldap, c.tenant, [role], uid);
      return if ok then Applied else DirectoryFailed;
    }

    method InviteNewUser(c: Caller, email: string, roles: seq<string>, accepts: bool) returns (o: Outcome)
      requires email !in ldap.accounts && Refusing(Now(), c, Request.CreateUser(email, roles)) == None
      modifies this, ldap
      ensures Next(old(Now()), c, Request.CreateUser(email, roles), o, Now())
      ensures old(Smooth(accepts)) ==> Completes(old(Now()), c, Request.CreateUser(email, roles), o, Now())
    {
      hide Granting, Dropping, Between, RolesOf, RoleNames, Refusing, Reach;
      var r := Request.CreateUser(email, roles);
      ghost var s := Now();
      GrantNone(s.groups, c.tenant, email);
      GrantNone(Granting(s.groups, c.tenant, Elements(roles), email), c.tenant, email);
      NamesAreKnown(s, c, email, roles);
      ReachAll(true, s.groups, c.tenant, roles, email);
      var recorded := Emit(c, r, accepts);
      if !recorded { return AuditDown; }
      var ok := ldap.CreateAccount(email);
      if !ok {
        PartWay(s.groups, c.tenant, {}, Elements(roles), email);
        return DirectoryFailed;
      }
      ok := GrantEach(ldap, c.tenant, roles, email);
      return if ok then Applied else DirectoryFailed;
    }

    method AddExistingToTenant(c: Caller, email: string, roles: seq<string>, accepts: bool) returns (o: Outcome)
      requires email in ldap.accounts && Refusing(Now(), c, Request.CreateUser(email, roles)) == None
      modifies this, ldap
      ensures Next(old(Now()), c, Request.CreateUser(email, roles), o, Now())
      ensures old(Smooth(accepts)) ==> Completes(old(Now()), c, Request.CreateUser(email, roles), o, Now())
    {
      hide Granting, Dropping, Between, RolesOf, RoleNames, Refusing, Reach, Lacking;
      var r := Request.CreateUser(email, roles);
      ghost var s := Now();
      var uid := ldap.accounts[email];
      var held := RolesOf(ldap.groups, c.tenant, uid);
      var add := NotHeld(roles, held);
      GrantNone(Granting(s.groups, c.tenant, Elements(add), uid), c.tenant, uid);
      NamesAreKnown(s, c, email, roles);
      ReachAll(true, s.groups, c.tenant, add, uid);
      var recorded := Emit(c, r, accepts);
      if !recorded { return AuditDown; }
      var ok := GrantEach(ldap, c.tenant, add, uid);
      return if ok then Applied else DirectoryFailed;
    }

    /** One flow whether or not the address already has an account. */
    method CreateUser(c: Caller, email: string, roles: seq<string>, accepts: bool) returns (o: Outcome)
      modifies this, ldap
      ensures Next(old(Now()), c, Request.CreateUser(email, roles), o, Now())
      ensures old(Smooth(accepts)) ==> Completes(old(Now()), c, Request.CreateUser(email, roles), o, Now())
    {
      hide Intended, HalfWay, Stopped, RolesOf, RoleNames;
      if !TenantAdmin(ldap.groups, c) { return Refused(NotTenantAdmin); }
      if !(Elements(roles) <= RoleNames(ldap.groups, c.tenant)) { return Refused(UnknownRole); }
      if exists role :: role in roles && SystemRole(role) { return Refused(SystemRoleRefused); }
      if email in ldap.accounts {
        o := AddExistingToTenant(c, email, roles, accepts);
      } else {
        o := InviteNewUser(c, email, roles, accepts);
      }
    }

    /** The member's roles in this tenant become exactly the wanted ones: first everything that
        is to be added, then everything that is to go. */
    method SetUserRoles(c: Caller, login: string, roles: seq<string>, accepts: bool) returns (o: Outcome)
      modifies this, ldap
      ensures Next(old(Now()), c, Request.SetUserRoles(login, roles), o, Now())
      ensures old(Smooth(accepts)) ==> Completes(old(Now()), c, Request.SetUserRoles(login, roles), o, Now())
    {
      hide Granting, Dropping, Between, RolesOf, RoleNames, Norm;
      var r := Request.SetUserRoles(login, roles);
      if !TenantAdmin(ldap.groups, c) { return Refused(NotTenantAdmin); }
      if login !in ldap.accounts { return Refused(NoSuchUser); }
      var uid := ldap.accounts[login];
      var held := RolesOf(ldap.groups, c.tenant, uid);
      if held == {} { return Refused(NotAMember); }
      var wanted := Norm(roles);
      if !(wanted <= RoleNames(ldap.groups, c.tenant)) { return Refused(UnknownRole); }
      if wanted == {} { return Refused(NoRoles); }
      ghost var s := Now();
      GrantNone(s.groups, c.tenant, uid);
      if wanted == held {
        assert wanted - held == {} == held - wanted;
        return Applied;
      }
      var add, drop := wanted - held, held - wanted;
      if exists role :: role in add && SystemRole(role) { return Refused(SystemRoleRefused); }
      if ADMINS in drop {
        if uid == c.user { return Refused(SelfRemoval); }
        if |Members(ldap.groups, c.tenant, ADMINS)| <= 1 { return Refused(LastAdministrator); }
      }
      var recorded := Emit(c, r, accepts);
      if !recorded { return AuditDown; }
      var ok := SwapRoles(ldap, c.tenant, add, drop, uid);
      return if ok then Applied else DirectoryFailed;
    }

    method RemoveUser(c: Caller, login: string, accepts: bool) returns (o: Outcome)
      modifies this, ldap
      ensures Next(old(Now()), c, Request.RemoveUser(login), o, Now())
      ensures old(Smooth(accepts)) ==> Completes(old(Now()), c, Request.RemoveUser(login), o, Now())
    {
      hide Granting, Dropping, Between, RolesOf, RoleNames;
      if !TenantAdmin(ldap.groups, c) { return Refused(NotTenantAdmin); }
      if login !in ldap.accounts { return Refused(NoSuchUser); }
      var uid := ldap.accounts[login];
      if uid == c.user { return Refused(SelfRemoval); }
      var held := RolesOf(ldap.groups, c.tenant, uid);
      if held == {} { return Refused(NotAMember); }
      if ADMINS in held && |Members(ldap.groups, c.tenant, ADMINS)| <= 1 { return Refused(LastAdministrator); }
      var recorded := Emit(c, Request.RemoveUser(login), accepts);
      if !recorded { return AuditDown; }
      GrantNone(ldap.groups, c.tenant, uid);
      var drops := Listed(held);
      ReachAll(false, ldap.groups, c.tenant, drops, uid);
      var ok := DropEach(ldap, c.tenant, drops, uid);
      return if ok then Applied else DirectoryFailed;
    }
  }

  lemma NamesAreKnown(s: State, c: Caller, email: string, roles: seq<string>)
    requires Refusing(s, c, CreateUser(email, roles)) == None
    ensures Elements(roles) <= RoleNames(s.groups, c.tenant)
  {
  }

  /** Being given roles takes none away. */
  lemma StillHolds(groups: Groups, tenant: string, roles: set<string>, uid: string)
    ensures RolesOf(groups, tenant, uid) <= RolesOf(Granting(groups, tenant, roles, uid), tenant, uid)
  {
  }
}
