/** The three ways a password is written: by an invitation link, by a reset link, and by its
    owner. The password policy is a predicate, and each request carries what the directory and
    the audit log answer it. */
module PasswordLinks {
  import opened Text
  import opened Tokens
  import TokenHistory

  /** `policy(password, uid)`. */
  type Policy = (string, string) -> bool

  datatype Via = ByInvite | ByReset | ByOwner

  /** What the directory does with a password write. A write whose answer is lost raises just
      like one that is refused. */
  datatype Directory = Written | RaisedUnwritten | RaisedWritten

  datatype Write = Write(via: Via, uid: string, password: string)

  datatype AuditOutcome = AuditOk | AuditDenied | AuditError

  datatype Record = Record(via: Via, outcome: AuditOutcome, actor: Option<string>)

  /** Passwords written and audit records accepted, in order. */
  datatype Book = Book(writes: seq<Write>, audit: seq<Record>)

  datatype Result = Done | BadLink | WrongPassword | PolicyUnmet | AuditDown | DirectoryError

  /** An emitter that is switched off accepts everything and records nothing. */
  datatype Auditing = Off | Answers(accepts: bool)

  function Emitted(book: Book, a: Auditing, r: Record): Book {
    if a == Answers(true) then book.(audit := book.audit + [r]) else book
  }

  predicate Accepted(a: Auditing) {
    a != Answers(false)
  }

  predicate Applied(d: Directory) {
    d != RaisedUnwritten
  }

  function Wrote(book: Book, d: Directory, w: Write): Book {
    if Applied(d) then book.(writes := book.writes + [w]) else book
  }

  class PasswordDoor {
    const tokens: TokenStore
    const policy: Policy
    var book: Book

    constructor (tokens: TokenStore, policy: Policy)
      ensures this.tokens == tokens && this.policy == policy && book == Book([], [])
    {
      this.tokens := tokens;
      this.policy := policy;
      book := Book([], []);
    }

    method Emit(a: Auditing, r: Record) returns (ok: bool)
      modifies this
      ensures ok == Accepted(a) && book == Emitted(old(book), a, r)
    {
      match a
      case Off => ok := true;
      case Answers(accepts) =>
        if accepts { book := book.(audit := book.audit + [r]); }
        ok := accepts;
    }

    method WritePassword(w: Write, d: Directory) returns (raised: bool)
      modifies this
      ensures raised == (d != Written) && book == Wrote(old(book), d, w)
    {
      if d != RaisedUnwritten { book := book.(writes := book.writes + [w]); }
      raised := d != Written;
    }

    method SetPasswordOr422(via: Via, uid: string, password: string, d: Directory) returns (r: Result)
      modifies this, tokens
      ensures !tokens.enabled ==> tokens.redis == old(tokens.redis)
      ensures var (ks, b, answer) := Setting(policy, old(tokens.redis), old(book), via, uid, password, d);
              (book, r) == (b, answer) && (tokens.enabled ==> tokens.redis == ks)
      ensures r == Done <==> policy(password, uid) && d == Written
      ensures r == PolicyUnmet <==> !policy(password, uid)
      ensures book == if r == Done || (r == DirectoryError && d == RaisedWritten)
                      then old(book).(writes := old(book).writes + [Write(via, uid, password)])
                      else old(book)
    {
      if !policy(password, uid) { return PolicyUnmet; }
      var raised := WritePassword(Write(via, uid, password), d);
      if raised { return DirectoryError; }
      tokens.RevokeAllFor(uid);
      return Done;
    }

    method InviteAccept(token: string, password: string, d: Directory) returns (r: Result)
      modifies this, tokens
      ensures !tokens.enabled ==> (tokens.redis, book, r) == (old(tokens.redis), old(book), BadLink)
      ensures tokens.enabled ==>
              (tokens.redis, book, r) == Accepting(policy, old(tokens.redis), old(book), token, password, d)
    {
      var uid := tokens.PeekToken(Invite, token);
      if uid.None? || uid.value == "" { return BadLink; }
      r := SetPasswordOr422(ByInvite, uid.value, password, d);
    }

    /** `first` answers the record made before anything is changed, `second` the one that reports
        what went wrong. */
    method ResetConfirm(token: string, password: string, d: Directory, first: Auditing, second: Auditing)
      returns (r: Result)
      modifies this, tokens
      ensures !tokens.enabled ==>
                && tokens.redis == old(tokens.redis) && r == BadLink
                && book == Emitted(old(book), first, Record(ByReset, AuditDenied, None))
      ensures tokens.enabled ==>
                (tokens.redis, book, r)
                == Confirming(policy, old(tokens.redis), old(book), token, password, d, first, second)
    {
      var uid := tokens.PeekToken(Kind.Reset, token);
      if uid.None? || uid.value == "" {
        var _ := Emit(first, Record(ByReset, AuditDenied, None));
        return BadLink;
      }
      var recorded := Emit(first, Record(ByReset, AuditOk, uid));
      if !recorded { return AuditDown; }
      r := SetPasswordOr422(ByReset, uid.value, password, d);
      if r == PolicyUnmet {
        var _ := Emit(second, Record(ByReset, AuditError, uid));
      }
    }

    /** `bound` says whether the current password was right. */
    method ChangePassword(user: string, bound: bool, password: string, d: Directory, first: Auditing, second: Auditing)
      returns (r: Result)
      modifies this
      ensures (book, r) == Changing(policy, old(book), user, bound, password, d, first, second)
      ensures book.writes == if r == Done || (r == DirectoryError && d == RaisedWritten)
                             then old(book).writes + [Write(ByOwner, user, password)]
                             else old(book).writes
    {
      if !bound {
        var _ := Emit(first, Record(ByOwner, AuditDenied, Some(user)));
        return WrongPassword;
      }
      if !policy(password, user) { return PolicyUnmet; }
      var recorded := Emit(first, Record(ByOwner, AuditOk, Some(user)));
      if !recorded { return AuditDown; }
      var raised := WritePassword(Write(ByOwner, user, password), d);
      if raised {
        var _ := Emit(second, Record(ByOwner, AuditError, Some(user)));
        return DirectoryError;
      }
      return Done;
    }
  }

  // ---------------------------------------------------------------- the requests as functions

  function Setting(policy: Policy, ks: Keyspace, book: Book, via: Via, uid: string, password: string,
                   d: Directory): (Keyspace, Book, Result) {
    if !policy(password, uid) then (ks, book, PolicyUnmet)
    else
      var b := Wrote(book, d, Write(via, uid, password));
      if d != Written then (ks, b, DirectoryError) else (RevokedAll(ks, uid), b, Done)
  }

  predicate GoodLink(ks: Keyspace, kind: Kind, token: string) {
    Peek(ks, kind, token).Some? && Peek(ks, kind, token).value != ""
  }

  function Accepting(policy: Policy, ks: Keyspace, book: Book, token: string, password: string,
                     d: Directory): (Keyspace, Book, Result) {
    if !GoodLink(ks, Invite, token) then (ks, book, BadLink)
    else Setting(policy, ks, book, ByInvite, Peek(ks, Invite, token).value, password, d)
  }

  function Confirming(policy: Policy, ks: Keyspace, book: Book, token: string, password: string, d: Directory,
                      first: Auditing, second: Auditing)
    : (Keyspace, Book, Result)
  {
    if !GoodLink(ks, Kind.Reset, token) then (ks, Emitted(book, first, Record(ByReset, AuditDenied, None)), BadLink)
    else
      var uid := Peek(ks, Kind.Reset, token).value;
      if !Accepted(first) then (ks, book, AuditDown)
      else
        var (k, b, r) := Setting(policy, ks, Emitted(book, first, Record(ByReset, AuditOk, Some(uid))), ByReset, uid,
                                 password, d);
        (k, if r == PolicyUnmet then Emitted(b, second, Record(ByReset, AuditError, Some(uid))) else b, r)
  }

  function Changing(policy: Policy, book: Book, user: string, bound: bool, password: string, d: Directory,
                    first: Auditing, second: Auditing)
    : (Book, Result)
  {
    if !bound then (Emitted(book, first, Record(ByOwner, AuditDenied, Some(user))), WrongPassword)
    else if !policy(password, user) then (book, PolicyUnmet)
    else if !Accepted(first) then (book, AuditDown)
    else
      var b := Wrote(Emitted(book, first, Record(ByOwner, AuditOk, Some(user))), d, Write(ByOwner, user, password));
      if d == Written then (b, Done) else (Emitted(b, second, Record(ByOwner, AuditError, Some(user))), DirectoryError)
  }

  // ---------------------------------------------------------------- runs

  datatype Event =
    | OnTokens(e: TokenHistory.Event)
    | Accept(token: string, password: string, d: Directory)
    | Confirm(token: string, password: string, d: Directory, first: Auditing, second: Auditing)
    | Change(user: string, bound: bool, password: string, d: Directory, first: Auditing, second: Auditing)

  datatype State = State(tokens: TokenHistory.State, book: Book)

  function Init(): State {
    State(TokenHistory.Init(), Book([], []))
  }

  function Step(policy: Policy, s: State, e: Event): (State, Result) {
    match e
    case OnTokens(te) => (s.(tokens := TokenHistory.Step(s.tokens, te)), Done)
    case Accept(token, password, d) =>
      var (k, b, r) := Accepting(policy, s.tokens.ks, s.book, token, password, d);
      (State(s.tokens.(ks := k), b), r)
    case Confirm(token, password, d, first, second) =>
      var (k, b, r) := Confirming(policy, s.tokens.ks, s.book, token, password, d, first, second);
      (State(s.tokens.(ks := k), b), r)
    case Change(user, bound, password, d, first, second) =>
      var (b, r) := Changing(policy, s.book, user, bound, password, d, first, second);
      (s.(book := b), r)
  }

  function RunFrom(policy: Policy, s: State, es: seq<Event>): State {
    if es == [] then s else Step(policy, RunFrom(policy, s, es[..|es| - 1]), es[|es| - 1]).0
  }

  function Run(policy: Policy, es: seq<Event>): State {
    RunFrom(policy, Init(), es)
  }

  /** A request by link: which link it presents. */
  predicate ByLink(e: Event) {
    e.Accept? || e.Confirm?
  }

  function LinkOf(e: Event): TokenKey
    requires ByLink(e)
  {
    if e.Accept? then TokenKey(Invite, e.token) else TokenKey(Kind.Reset, e.token)
  }

  /** What a link request does to the tokens: nothing, or, when it succeeds, what revoking
      everything of the link's owner does. */
  lemma LinkEffect(policy: Policy, s: State, e: Event)
    requires ByLink(e)
    ensures var (t, r) := Step(policy, s, e);
            var owner := Peek(s.tokens.ks, LinkOf(e).kind, LinkOf(e).token);
            if r == Done
            then owner.Some? && t.tokens == TokenHistory.Step(s.tokens, TokenHistory.RevokeAll(owner.value))
            else t.tokens == s.tokens
  {
    hide RevokedAll, Peek, Emitted, Wrote;
  }

  lemma OtherEffect(policy: Policy, s: State, e: Event)
    requires !ByLink(e)
    ensures Step(policy, s, e).0.tokens == if e.OnTokens? then TokenHistory.Step(s.tokens, e.e) else s.tokens
  {
  }

  lemma StepAgrees(policy: Policy, s: State, e: Event)
    requires TokenHistory.Agrees(s.tokens)
    ensures TokenHistory.Agrees(Step(policy, s, e).0.tokens)
  {
    hide Step, TokenHistory.Agrees, TokenHistory.Step;
    if ByLink(e) {
      LinkEffect(policy, s, e);
      var owner := Peek(s.tokens.ks, LinkOf(e).kind, LinkOf(e).token);
      if owner.Some? { TokenHistory.StepAgrees(s.tokens, TokenHistory.RevokeAll(owner.value)); }
    } else {
      OtherEffect(policy, s, e);
      if e.OnTokens? { TokenHistory.StepAgrees(s.tokens, e.e); }
    }
  }

  lemma {:induction false} RunAgrees(policy: Policy, s: State, es: seq<Event>)
    requires TokenHistory.Agrees(s.tokens)
    ensures TokenHistory.Agrees(RunFrom(policy, s, es).tokens)
  {
    hide Step, TokenHistory.Agrees;
    if es != [] {
      RunAgrees(policy, s, es[..|es| - 1]);
      StepAgrees(policy, RunFrom(policy, s, es[..|es| - 1]), es[|es| - 1]);
    }
  }

  /** A link request that fails leaves every token as it was; one that succeeds ends every token
      of the link's owner, the link itself among them, and no token of anyone else. */
  lemma FailureKeepsLinks(policy: Policy, es: seq<Event>, e: Event, kind: Kind, token: string)
    requires ByLink(e)
    ensures var s := Run(policy, es);
            var (t, r) := Step(policy, s, e);
            var owner := Peek(s.tokens.ks, LinkOf(e).kind, LinkOf(e).token);
            && (r != Done ==> t.tokens == s.tokens)
            && (r == Done ==>
                  && owner.Some?
                  && Peek(t.tokens.ks, kind, token)
                     == if Peek(s.tokens.ks, kind, token) == owner then None else Peek(s.tokens.ks, kind, token))
  {
    hide Step, TokenHistory.Agrees, Peek, RevokedAll;
    var s := Run(policy, es);
    TokenHistory.RunAgrees([]);
    RunAgrees(policy, Init(), es);
    LinkEffect(policy, s, e);
    var owner := Peek(s.tokens.ks, LinkOf(e).kind, LinkOf(e).token);
    if owner.Some? { TokenHistory.RevokeExact(s.tokens, owner.value, kind, token); }
  }

  predicate Dead(s: State, key: TokenKey) {
    key.token in s.tokens.used && Peek(s.tokens.ks, key.kind, key.token) == None
  }

  lemma DeadStaysDead(policy: Policy, s: State, e: Event, key: TokenKey)
    requires TokenHistory.Agrees(s.tokens) && Dead(s, key)
    ensures Dead(Step(policy, s, e).0, key)
  {
    hide Step, TokenHistory.Agrees, TokenHistory.Step, Peek;
    if ByLink(e) {
      LinkEffect(policy, s, e);
      var owner := Peek(s.tokens.ks, LinkOf(e).kind, LinkOf(e).token);
      if owner.Some? { TokenHistory.DeadStaysDead(s.tokens, TokenHistory.RevokeAll(owner.value), key.kind, key.token); }
    } else {
      OtherEffect(policy, s, e);
      if e.OnTokens? { TokenHistory.DeadStaysDead(s.tokens, e.e, key.kind, key.token); }
    }
  }

  lemma {:induction false} DeadForever(policy: Policy, s: State, es: seq<Event>, key: TokenKey)
    requires TokenHistory.Agrees(s.tokens) && Dead(s, key)
    ensures Dead(RunFrom(policy, s, es), key)
  {
    hide Step, TokenHistory.Agrees, Dead;
    if es != [] {
      var before := es[..|es| - 1];
      DeadForever(policy, s, before, key);
      RunAgrees(policy, s, before);
      DeadStaysDead(policy, RunFrom(policy, s, before), es[|es| - 1], key);
    }
  }

  /** Each link sets a password successfully at most once: after a success, whatever happens in
      between, presenting the same link again is answered as a bad link and writes nothing. */
  lemma OneSuccessPerLink(policy: Policy, es: seq<Event>, e: Event, between: seq<Event>, again: Event)
    requires ByLink(e) && ByLink(again) && LinkOf(e) == LinkOf(again)
    requires Step(policy, Run(policy, es), e).1 == Done
    ensures var s := RunFrom(policy, Step(policy, Run(policy, es), e).0, between);
            var (t, r) := Step(policy, s, again);
            r == BadLink && t.tokens == s.tokens && t.book.writes == s.book.writes
  {
    var s0 := Run(policy, es);
    TokenHistory.RunAgrees([]);
    RunAgrees(policy, Init(), es);
    SuccessKills(policy, s0, e);
    var s1 := Step(policy, s0, e).0;
    StepAgrees(policy, s0, e);
    DeadForever(policy, s1, between, LinkOf(e));
    DeadLink(policy, RunFrom(policy, s1, between), again);
  }

  lemma SuccessKills(policy: Policy, s: State, e: Event)
    requires TokenHistory.Agrees(s.tokens) && ByLink(e) && Step(policy, s, e).1 == Done
    ensures Dead(Step(policy, s, e).0, LinkOf(e))
  {
    hide Step;
    LinkEffect(policy, s, e);
    var key := LinkOf(e);
    var owner := Peek(s.tokens.ks, key.kind, key.token);
    TokenHistory.RevokeExact(s.tokens, owner.value, key.kind, key.token);
  }

  lemma DeadLink(policy: Policy, s: State, e: Event)
    requires ByLink(e) && Dead(s, LinkOf(e))
    ensures var (t, r) := Step(policy, s, e); r == BadLink && t.tokens == s.tokens && t.book.writes == s.book.writes
  {
    hide Peek, Setting;
  }

  // ---------------------------------------------------------------- what is written, and what is on record

  /** Who a request is for: the owner of its link, if it is alive, or the caller. */
  function Asker(s: State, e: Event): Option<string>
    requires !e.OnTokens?
  {
    if e.Change? then if e.bound then Some(e.user) else None
    else
      var owner := Peek(s.tokens.ks, LinkOf(e).kind, LinkOf(e).token);
      if owner == Some("") then None else owner
  }

  function RouteOf(e: Event): Via
    requires !e.OnTokens?
  {
    match e
    case Accept(_, _, _) => ByInvite
    case Confirm(_, _, _, _, _) => ByReset
    case Change(_, _, _, _, _, _) => ByOwner
  }

  /** Which answer a request gets: done exactly if somebody may ask, the password meets the policy,
      the record (where one is made first) is accepted, and the directory writes. */
  lemma AnswersMean(policy: Policy, s: State, e: Event)
    requires !e.OnTokens?
    ensures var r, who := Step(policy, s, e).1, Asker(s, e);
            var unrecorded := !e.Accept? && e.first == Answers(false);
            && (r == BadLink <==> who == None && ByLink(e))
            && (r == WrongPassword <==> who == None && e.Change?)
            && (r == Done <==> who.Some? && policy(e.password, who.value) && !unrecorded && e.d == Written)
            && (r == DirectoryError <==> who.Some? && policy(e.password, who.value) && !unrecorded && e.d != Written)
            && (r == AuditDown <==> who.Some? && unrecorded && (e.Change? ==> policy(e.password, who.value)))
            && (r == PolicyUnmet <==> who.Some? && !policy(e.password, who.value) && (e.Confirm? ==> !unrecorded))
  {
    hide RevokedAll, Peek, Emitted, Wrote;
  }

  /** What a request writes, after any history: one answered as done has written exactly the
      password it brought, by its own route and for the one who asked; one that failed in the
      directory has written the same exactly if the directory did before its answer was lost; and
      nothing else writes anything. */
  lemma DoneMeansWritten(policy: Policy, es: seq<Event>, e: Event)
    ensures var s := Run(policy, es);
            var (t, r) := Step(policy, s, e);
            if !e.OnTokens? && (r == Done || (r == DirectoryError && e.d == RaisedWritten))
            then Asker(s, e).Some?
                 && t.book.writes == s.book.writes + [Write(RouteOf(e), Asker(s, e).value, e.password)]
            else t.book.writes == s.book.writes
  {
    hide Run, RevokedAll, Peek;
  }

  /** What a request leaves in an audit log that answers: nothing by invitation; otherwise what its
      answer calls for, in order. */
  lemma AuditTells(policy: Policy, s: State, e: Event)
    requires !e.OnTokens? && (e.Accept? || (e.first == Answers(true) == e.second))
    ensures var (t, r) := Step(policy, s, e);
            var via := RouteOf(e);
            var who := if e.Change? then Some(e.user) else Asker(s, e);
            t.book.audit == s.book.audit +
              if e.Accept? then []
              else if Asker(s, e) == None then [Record(via, AuditDenied, who)]
              else if r == Done then [Record(via, AuditOk, who)]
              else if r == PolicyUnmet && e.Change? then []
              else if r == DirectoryError && e.Confirm? then [Record(via, AuditOk, who)]
              else [Record(via, AuditOk, who), Record(via, AuditError, who)]
  {
    hide RevokedAll, Peek;
  }

  predicate PassesPolicy(policy: Policy, w: Write) {
    policy(w.password, w.uid)
  }

  predicate RecordOf(w: Write, r: Record) {
    r == Record(w.via, AuditOk, Some(w.uid))
  }

  predicate RecordsBefore(e: Event) {
    (e.Confirm? || e.Change?) && e.first != Off
  }

  /** One step writes at most one password. It passed the policy for its uid; it was asked for by
      a live link of that uid or by the uid that knew its password; and unless it came by
      invitation or auditing is off, its own `ok` record had been accepted before it. */
  lemma StepWrites(policy: Policy, s: State, e: Event)
    ensures var t := Step(policy, s, e).0;
            || t.book.writes == s.book.writes
            || (&& |t.book.writes| == |s.book.writes| + 1 && s.book.writes <= t.book.writes
                && var w := t.book.writes[|s.book.writes|];
                   && PassesPolicy(policy, w)
                   && (ByLink(e) ==> Peek(s.tokens.ks, LinkOf(e).kind, LinkOf(e).token) == Some(w.uid) && w.uid != "")
                   && (e.Change? ==> e.bound && w.uid == e.user)
                   && (RecordsBefore(e) ==>
                         && |s.book.audit| < |t.book.audit| && s.book.audit <= t.book.audit
                         && RecordOf(w, t.book.audit[|s.book.audit|])))
  {
    hide RevokedAll, Peek;
  }

  lemma {:induction false} EveryPasswordPassedPolicy(policy: Policy, es: seq<Event>, i: nat)
    requires i < |Run(policy, es).book.writes|
    ensures PassesPolicy(policy, Run(policy, es).book.writes[i])
  {
    hide Step, PassesPolicy;
    if es != [] {
      var before := es[..|es| - 1];
      StepWrites(policy, Run(policy, before), es[|es| - 1]);
      if i < |Run(policy, before).book.writes| { EveryPasswordPassedPolicy(policy, before, i); }
    }
  }

  /** The step leaves an `ok` record with nothing after it to correct it, though it did not
      succeed. */
  predicate Dangling(s: State, t: State, r: Result) {
    && r != Done && s.book.audit <= t.book.audit && t.book.audit != s.book.audit
    && t.book.audit[|t.book.audit| - 1].outcome == AuditOk
  }

  /** A reset that fails corrects its `ok` record when the policy refuses the password, but not
      when the directory raises: with the audit log answering, the record is left standing
      exactly when the link was good, the policy was met and the directory raised. */
  lemma ResetLeavesOkIff(policy: Policy, s: State, token: string, password: string, d: Directory)
    ensures var (t, r) := Step(policy, s, Confirm(token, password, d, Answers(true), Answers(true)));
            Dangling(s, t, r) <==>
              && GoodLink(s.tokens.ks, Kind.Reset, token)
              && policy(password, Peek(s.tokens.ks, Kind.Reset, token).value)
              && d != Written
  {
    hide RevokedAll, Peek;
  }

  /** A password change by its owner never leaves one. */
  lemma ChangeNeverLeavesOk(policy: Policy, s: State, user: string, bound: bool, password: string, d: Directory)
    ensures var (t, r) := Step(policy, s, Change(user, bound, password, d, Answers(true), Answers(true)));
            !Dangling(s, t, r)
  {
  }
}
