/**
 * Accounts and their external identities: child-account administration, OIDC provisioning and
 * unlinking. Each operation is one transaction over the user and identity rows; an operation
 * that fails leaves both tables as they were.
 */
module Accounts {
  import opened Wrappers

  datatype Source = Local | Oidc | Mixed

  /** hasPassword is false exactly for the reserved hash that no password matches. */
  datatype User = User(username: string, role: string, hasPassword: bool, disabled: bool, deleted: bool, source: Source)

  /** An external identity: the provider and the provider's name for the subject. */
  type Subject = (string, string)

  /** byName and links are the tables' unique indexes on usernames and on subjects. */
  datatype State = State(users: map<nat, User>, byName: map<string, nat>, links: map<Subject, nat>, next: nat)

  datatype Provider = Provider(autoCreate: bool, authoritativeRoles: bool)

  datatype Operation =
    | CreateChild(name: string, nameValid: bool)
    | SetDisabled(user: nat, disabled: bool)
    | ResetPassword(user: nat)
    | ChangeOwnPassword(user: nat, currentMatches: bool, newAcceptable: bool)
    | DeleteChild(user: nat)
    | RestoreChild(user: nat)
    | Provision(provider: Provider, subject: Subject, name: string, nameValid: bool, role: string)
    | Unlink(user: nat, subject: Subject)

  datatype Error =
    | UsernameInvalid | UsernameConflict | AccountNotFound | AdminProtected | AccountDeleted | PasswordRejected
    | AccountDisabled | LastAdminProtected | NotProvisioned | IdentityNotFound | IdentityRequired

  datatype Result = Done(state: State) | Refused(error: Error)

  function Lower(c: char): char {
    if 'A' <= c <= 'Z' then c - 'A' + 'a' else c
  }

  function LowerAll(s: string): string {
    if s == "" then "" else [Lower(s[0])] + LowerAll(s[1..])
  }

  /** Administration protects every spelling of the administrator role. */
  predicate IsAdminRole(role: string) {
    LowerAll(role) == "admin"
  }

  predicate IsActiveAdmin(u: User) {
    u.role == "admin" && !u.disabled && !u.deleted
  }

  function ActiveAdmins(users: map<nat, User>): set<nat> {
    set u | u in users && IsActiveAdmin(users[u])
  }

  function LinksOf(links: map<Subject, nat>, u: nat): set<Subject> {
    set k | k in links && links[k] == u
  }

  function SetUser(s: State, u: nat, x: User): State {
    s.(users := s.users[u := x])
  }

  /** The common shape of child administration: load, refuse administrators, change, write back. */
  function MutateChild(s: State, u: nat, refuseDeleted: bool, x: User): Result {
    if u !in s.users then Refused(AccountNotFound)
    else if IsAdminRole(s.users[u].role) then Refused(AdminProtected)
    else if refuseDeleted && s.users[u].deleted then Refused(AccountDeleted)
    else Done(SetUser(s, u, x))
  }

  function Existing(s: State, u: nat): User {
    if u in s.users then s.users[u] else User("", "", false, false, false, Local)
  }

  /** The provider's role wins when it is authoritative, except over the last active administrator. */
  function ApplyRole(s: State, u: nat, p: Provider, role: string): Result
    requires u in s.users
  {
    var x := s.users[u];
    if !p.authoritativeRoles || x.role == role then Done(s)
    else if x.role == "admin" && role != "admin" && |ActiveAdmins(s.users)| <= 1 then Refused(LastAdminProtected)
    else Done(SetUser(s, u, x.(role := role)))
  }

  function LinkExisting(s: State, u: nat, p: Provider, k: Subject, role: string): Result
    requires u in s.users
  {
    if s.users[u].disabled || s.users[u].deleted then Refused(AccountDisabled)
    else
      match ApplyRole(s, u, p, role)
      case Refused(e) => Refused(e)
      case Done(t) =>
        if u !in t.users then Refused(AccountNotFound)
        else
          var x := t.users[u];
          var t2 := t.(links := t.links[k := u]);
          Done(if x.hasPassword && x.source == Local then SetUser(t2, u, x.(source := Mixed)) else t2)
  }

  function CreateLinked(s: State, k: Subject, name: string, role: string): State {
    s.(users := s.users[s.next := User(name, role, false, false, false, Oidc)], byName := s.byName[name := s.next],
       links := s.links[k := s.next], next := s.next + 1)
  }

  /** Provisioning once the subject is known not to be linked to a live account. */
  function ProvisionUnlinked(s: State, p: Provider, k: Subject, name: string, role: string): Result {
    if name in s.byName && s.byName[name] in s.users then LinkExisting(s, s.byName[name], p, k, role)
    else if !p.autoCreate then Refused(NotProvisioned)
    else Done(CreateLinked(s, k, name, role))
  }

  function Provisioned(s: State, p: Provider, k: Subject, name: string, nameValid: bool, role: string): Result {
    if !nameValid then Refused(NotProvisioned)
    else if k in s.links && s.links[k] in s.users then
      var u := s.links[k];
      if s.users[u].disabled || s.users[u].deleted then Refused(AccountDisabled) else ApplyRole(s, u, p, role)
    else ProvisionUnlinked(s.(links := s.links - {k}), p, k, name, role)
  }

  function Unlinked(s: State, u: nat, k: Subject): Result {
    if u !in s.users then Refused(AccountNotFound)
    else if k !in s.links || s.links[k] != u then Refused(IdentityNotFound)
    else if !s.users[u].hasPassword && |LinksOf(s.links, u)| <= 1 then Refused(IdentityRequired)
    else
      var t := s.(links := s.links - {k});
      var x := s.users[u];
      var passwordOnly := |LinksOf(t.links, u)| == 0 && x.hasPassword && x.source == Mixed;
      Done(if passwordOnly then SetUser(t, u, x.(source := Local)) else t)
  }

  function Perform(s: State, op: Operation): Result {
    match op
    case CreateChild(name, valid) =>
      if !valid then Refused(UsernameInvalid)
      else if name in s.byName then Refused(UsernameConflict)
      else Done(s.(users := s.users[s.next := User(name, "user", true, false, false, Local)],
                   byName := s.byName[name := s.next], next := s.next + 1))
    case SetDisabled(u, b) => MutateChild(s, u, true, Existing(s, u).(disabled := b))
    case ResetPassword(u) => MutateChild(s, u, true, Existing(s, u).(hasPassword := true))
    case ChangeOwnPassword(u, matches, acceptable) =>
      if !acceptable then Refused(PasswordRejected)
      else if u !in s.users then Refused(AccountNotFound)
      else if s.users[u].deleted || s.users[u].disabled then Refused(AccountDeleted)
      else if !s.users[u].hasPassword || !matches then Refused(PasswordRejected)
      else Done(s)
    case DeleteChild(u) => MutateChild(s, u, false, Existing(s, u).(deleted := true, disabled := true))
    case RestoreChild(u) => MutateChild(s, u, false, Existing(s, u).(deleted := false, disabled := false))
    case Provision(p, k, name, valid, role) => Provisioned(s, p, k, name, valid, role)
    case Unlink(u, k) => Unlinked(s, u, k)
  }

  function Step(s: State, op: Operation): State {
    match Perform(s, op)
    case Done(t) => t
    case Refused(_) => s
  }

  function Exec(s: State, ops: seq<Operation>): State {
    if ops == [] then s else Step(Exec(s, ops[..|ops| - 1]), ops[|ops| - 1])
  }

  // ---------------------------------------------------------------------------
  // The invariants
  // ---------------------------------------------------------------------------

  /** Without a password there is an identity; mixed has both; local has a password and no identity. */
  predicate UserOk(x: User, links: set<Subject>) {
    && (!x.hasPassword ==> links != {})
    && (x.source == Mixed ==> x.hasPassword && links != {})
    && (x.source == Local ==> x.hasPassword && links == {})
  }

  /** Numbers not issued yet are used nowhere, and the name index points at users of that name. */
  predicate Tables(s: State) {
    && (forall u :: u in s.users ==> u < s.next)
    && (forall k :: k in s.links ==> s.links[k] < s.next)
    && (forall n :: n in s.byName ==> s.byName[n] in s.users && s.users[s.byName[n]].username == n)
    && (forall u :: u in s.users ==> s.users[u].username in s.byName && s.byName[s.users[u].username] == u)
  }

  predicate Inv(s: State) {
    Tables(s) && forall u :: u in s.users ==> UserOk(s.users[u], LinksOf(s.links, u))
  }

  lemma NewUserKeeps(s: State, x: User, links: map<Subject, nat>)
    requires Inv(s) && x.username !in s.byName && UserOk(x, LinksOf(links, s.next))
    requires forall k :: k in links ==> links[k] <= s.next
    requires forall u :: u in s.users ==> LinksOf(links, u) == LinksOf(s.links, u)
    ensures Inv(s.(users := s.users[s.next := x], byName := s.byName[x.username := s.next],
                   links := links, next := s.next + 1))
  {
  }

  lemma CreateChildKeeps(s: State, name: string)
    requires Inv(s) && name !in s.byName
    ensures Inv(Step(s, CreateChild(name, true)))
  {
    assert LinksOf(s.links, s.next) == {};
    NewUserKeeps(s, User(name, "user", true, false, false, Local), s.links);
  }

  lemma MutateKeeps(s: State, u: nat, x: User)
    requires Inv(s) && u in s.users
    requires x.username == s.users[u].username && x.source == s.users[u].source
    requires s.users[u].hasPassword ==> x.hasPassword
    ensures Inv(SetUser(s, u, x))
  {
  }

  lemma DropStaleKeeps(s: State, k: Subject)
    requires Inv(s) && (k in s.links ==> s.links[k] !in s.users)
    ensures Inv(s.(links := s.links - {k}))
  {
  }

  lemma AddLink(links: map<Subject, nat>, k: Subject, u: nat, v: nat)
    requires k !in links
    ensures LinksOf(links[k := u], u) != {}
    ensures v != u ==> LinksOf(links[k := u], v) == LinksOf(links, v)
  {
    assert k in LinksOf(links[k := u], u);
    forall j ensures v != u ==> (j in LinksOf(links[k := u], v) <==> j in LinksOf(links, v)) {
    }
  }

  lemma LinkKeeps(s: State, u: nat, k: Subject)
    requires Inv(s) && u in s.users && k !in s.links
    ensures
      var x := s.users[u];
      var t := s.(links := s.links[k := u]);
      Inv(if x.hasPassword && x.source == Local then SetUser(t, u, x.(source := Mixed)) else t)
  {
    var x := s.users[u];
    var t := s.(links := s.links[k := u]);
    var r := if x.hasPassword && x.source == Local then SetUser(t, u, x.(source := Mixed)) else t;
    forall v | v in r.users ensures UserOk(r.users[v], LinksOf(r.links, v)) {
      AddLink(s.links, k, u, v);
      assert UserOk(s.users[v], LinksOf(s.links, v));
    }
  }

  lemma ApplyRoleKeeps(s: State, u: nat, p: Provider, role: string)
    requires Inv(s) && u in s.users && ApplyRole(s, u, p, role).Done?
    ensures Inv(ApplyRole(s, u, p, role).state)
    ensures u in ApplyRole(s, u, p, role).state.users && ApplyRole(s, u, p, role).state.links == s.links
  {
  }

  lemma ProvisionUnlinkedKeeps(s: State, p: Provider, k: Subject, name: string, role: string)
    requires Inv(s) && k !in s.links && ProvisionUnlinked(s, p, k, name, role).Done?
    ensures Inv(ProvisionUnlinked(s, p, k, name, role).state)
  {
    if name in s.byName {
      var u := s.byName[name];
      ApplyRoleKeeps(s, u, p, role);
      LinkKeeps(ApplyRole(s, u, p, role).state, u, k);
    } else {
      var x := User(name, role, false, false, false, Oidc);
      forall u | u in s.users ensures LinksOf(s.links[k := s.next], u) == LinksOf(s.links, u) {
        AddLink(s.links, k, s.next, u);
      }
      AddLink(s.links, k, s.next, s.next);
      NewUserKeeps(s, x, s.links[k := s.next]);
    }
  }

  lemma ProvisionKeeps(s: State, p: Provider, k: Subject, name: string, role: string)
    requires Inv(s) && Provisioned(s, p, k, name, true, role).Done?
    ensures Inv(Provisioned(s, p, k, name, true, role).state)
  {
    if k in s.links && s.links[k] in s.users {
      ApplyRoleKeeps(s, s.links[k], p, role);
    } else {
      DropStaleKeeps(s, k);
      ProvisionUnlinkedKeeps(s.(links := s.links - {k}), p, k, name, role);
    }
  }

  lemma RemoveLink(links: map<Subject, nat>, k: Subject, v: nat)
    requires k in links
    ensures LinksOf(links - {k}, v) == LinksOf(links, v) - {k}
    ensures v != links[k] ==> LinksOf(links - {k}, v) == LinksOf(links, v)
    ensures v == links[k] ==> |LinksOf(links - {k}, v)| == |LinksOf(links, v)| - 1
  {
  }

  lemma UnlinkKeeps(s: State, u: nat, k: Subject)
    requires Inv(s) && Unlinked(s, u, k).Done?
    ensures Inv(Unlinked(s, u, k).state)
  {
    var r := Unlinked(s, u, k).state;
    forall v | v in r.users ensures UserOk(r.users[v], LinksOf(r.links, v)) {
      RemoveLink(s.links, k, v);
      assert UserOk(s.users[v], LinksOf(s.links, v));
    }
  }

  lemma StepKeeps(s: State, op: Operation)
    requires Inv(s)
    ensures Inv(Step(s, op))
  {
    if Perform(s, op).Done? {
      match op {
        case CreateChild(name, _) => CreateChildKeeps(s, name);
        case Provision(p, k, name, _, role) => ProvisionKeeps(s, p, k, name, role);
        case Unlink(u, k) => UnlinkKeeps(s, u, k);
        case ChangeOwnPassword(_, _, _) =>
        case _ => MutateKeeps(s, op.user, Step(s, op).users[op.user]);
      }
    }
  }

  /** Whatever the operations, accounts keep the credentials their source promises. */
  lemma {:induction false} AccountsKeepCredentials(s: State, ops: seq<Operation>)
    requires Inv(s)
    ensures Inv(Exec(s, ops))
  {
    if ops != [] {
      AccountsKeepCredentials(s, ops[..|ops| - 1]);
      StepKeeps(Exec(s, ops[..|ops| - 1]), ops[|ops| - 1]);
    }
  }

  /** Spelled out: on every run no account is left without a way to log in, and local and mixed mean what they say. */
  lemma {:induction false} CredentialsAfterAnyRun(s: State, ops: seq<Operation>, u: nat)
    requires Inv(s) && u in Exec(s, ops).users
    ensures
      var x := Exec(s, ops).users[u];
      var links := LinksOf(Exec(s, ops).links, u);
      && (x.hasPassword || links != {})
      && (x.source == Mixed ==> x.hasPassword && links != {})
      && (x.source == Local ==> x.hasPassword && links == {})
  {
    AccountsKeepCredentials(s, ops);
  }

  // ---------------------------------------------------------------------------
  // The external label
  // ---------------------------------------------------------------------------

  /** An account is labelled external exactly when it has no password. */
  predicate OidcMeansNoPassword(s: State) {
    forall u :: u in s.users ==> (s.users[u].source == Oidc <==> !s.users[u].hasPassword)
  }

  /** The operation gives an external account a password. */
  predicate ResetsExternal(s: State, op: Operation) {
    op.ResetPassword? && Perform(s, op).Done? && op.user in s.users && s.users[op.user].source == Oidc
  }

  /** No row gains or loses a password or becomes external, and a new external row has no password. */
  predicate LabelsKept(users: map<nat, User>, after: map<nat, User>) {
    forall u :: u in after ==>
      if u in users
      then after[u].hasPassword == users[u].hasPassword && (after[u].source == Oidc ==> users[u].source == Oidc)
      else after[u].source == Oidc ==> !after[u].hasPassword
  }

  lemma RoleKeepsLabels(s: State, u: nat, p: Provider, role: string)
    requires u in s.users && ApplyRole(s, u, p, role).Done?
    ensures LabelsKept(s.users, ApplyRole(s, u, p, role).state.users)
  {
  }

  lemma ProvisionKeepsLabels(s: State, p: Provider, k: Subject, name: string, role: string)
    requires Tables(s) && Provisioned(s, p, k, name, true, role).Done?
    ensures LabelsKept(s.users, Provisioned(s, p, k, name, true, role).state.users)
  {
    if k in s.links && s.links[k] in s.users {
      RoleKeepsLabels(s, s.links[k], p, role);
    } else if name in s.byName && s.byName[name] in s.users {
      RoleKeepsLabels(s.(links := s.links - {k}), s.byName[name], p, role);
    }
  }

  lemma OtherStepsKeepLabels(s: State, op: Operation)
    requires Tables(s) && Perform(s, op).Done? && !op.ResetPassword?
    ensures LabelsKept(s.users, Step(s, op).users)
  {
    match op {
      case Provision(p, k, name, _, role) => ProvisionKeepsLabels(s, p, k, name, role);
      case _ =>
    }
  }

  lemma NoPasswordMeansExternal(s: State)
    requires Inv(s)
    ensures forall u :: u in s.users && !s.users[u].hasPassword ==> s.users[u].source == Oidc
  {
    forall u | u in s.users && !s.users[u].hasPassword ensures s.users[u].source == Oidc {
      assert UserOk(s.users[u], LinksOf(s.links, u));
    }
  }

  lemma StepKeepsExternalLabel(s: State, op: Operation)
    requires Inv(s) && OidcMeansNoPassword(s)
    ensures OidcMeansNoPassword(Step(s, op)) <==> !ResetsExternal(s, op)
  {
    StepKeeps(s, op);
    NoPasswordMeansExternal(Step(s, op));
    if Perform(s, op).Done? && !op.ResetPassword? {
      OtherStepsKeepLabels(s, op);
    } else if ResetsExternal(s, op) {
      assert Step(s, op).users[op.user].hasPassword && Step(s, op).users[op.user].source == Oidc;
    }
  }

  /** External means no password now and after each of the operations. */
  predicate LabelTrueThroughout(s: State, ops: seq<Operation>) {
    OidcMeansNoPassword(Exec(s, ops)) && (ops != [] ==> LabelTrueThroughout(s, ops[..|ops| - 1]))
  }

  /** None of the operations gives an external account a password. */
  predicate NeverResetsExternal(s: State, ops: seq<Operation>) {
    ops != [] ==>
      !ResetsExternal(Exec(s, ops[..|ops| - 1]), ops[|ops| - 1]) && NeverResetsExternal(s, ops[..|ops| - 1])
  }

  /**
   * From tables where it is so, external means no password on a whole run exactly when the run never resets
   * the password of an external account.
   */
  lemma {:induction false} ExternalLabelIff(s: State, ops: seq<Operation>)
    requires Inv(s) && OidcMeansNoPassword(s)
    ensures LabelTrueThroughout(s, ops) <==> NeverResetsExternal(s, ops)
  {
    if ops != [] {
      var before := ops[..|ops| - 1];
      ExternalLabelIff(s, before);
      AccountsKeepCredentials(s, before);
      if LabelTrueThroughout(s, before) {
        StepKeepsExternalLabel(Exec(s, before), ops[|ops| - 1]);
      }
    }
  }

  const SUBJECT: Subject := ("provider", "subject")

  /** One account, created by its identity provider. */
  function OneExternal(): State {
    State(map[0 := User("u", "user", false, false, false, Oidc)], map["u" := 0], map[SUBJECT := 0], 1)
  }

  lemma OneExternalIsValid()
    ensures Inv(OneExternal()) && OidcMeansNoPassword(OneExternal())
  {
    assert SUBJECT in LinksOf(OneExternal().links, 0);
  }

  lemma ResetReachesExternal(s: State)
    requires s == OneExternal()
    ensures Step(s, ResetPassword(0)) == SetUser(s, 0, s.users[0].(hasPassword := true))
  {
    assert LowerAll("r") == "r";
    assert LowerAll("er") == "er";
    assert LowerAll("ser") == "ser";
    assert LowerAll("user") == "user";
  }

  lemma UnlinkKeepsExternal(s: State)
    requires s == SetUser(OneExternal(), 0, OneExternal().users[0].(hasPassword := true))
    ensures Step(s, Unlink(0, SUBJECT)) == s.(links := map[])
  {
    assert s.links - {SUBJECT} == map[];
  }

  /** A reset and an unlink leave an account labelled external that has a password and no identity. */
  lemma ResetCanFalsifyTheLabel() returns (s: State, ops: seq<Operation>)
    ensures Inv(s) && OidcMeansNoPassword(s)
    ensures
      var t := Exec(s, ops);
      0 in t.users && t.users[0].source == Oidc && t.users[0].hasPassword && LinksOf(t.links, 0) == {}
  {
    s, ops := OneExternal(), [ResetPassword(0), Unlink(0, SUBJECT)];
    OneExternalIsValid();
    ResetReachesExternal(s);
    UnlinkKeepsExternal(Step(s, ResetPassword(0)));
    assert ops[..1] == [ResetPassword(0)] && ops[..1][..0] == [];
    assert Exec(s, ops[..1]) == Step(s, ResetPassword(0));
    assert Exec(s, ops) == Step(Exec(s, ops[..1]), Unlink(0, SUBJECT));
  }

  // ---------------------------------------------------------------------------
  // The last administrator
  // ---------------------------------------------------------------------------

  lemma AdminRoleIsProtected()
    ensures IsAdminRole("admin")
  {
  }

  /** Replacing a row that is not an active administrator's loses no administrator. */
  lemma OtherRowsKeepAdmins(users: map<nat, User>, u: nat, x: User)
    requires u !in users || !IsActiveAdmin(users[u]) || IsActiveAdmin(x)
    ensures ActiveAdmins(users) <= ActiveAdmins(users[u := x])
  {
  }

  lemma RoleKeepsAnAdmin(s: State, u: nat, p: Provider, role: string)
    requires u in s.users && !s.users[u].disabled && !s.users[u].deleted && ActiveAdmins(s.users) != {}
    requires ApplyRole(s, u, p, role).Done?
    ensures ActiveAdmins(ApplyRole(s, u, p, role).state.users) != {}
  {
    var t := ApplyRole(s, u, p, role).state;
    if s.users[u].role == "admin" && t.users[u].role != "admin" {
      assert u in ActiveAdmins(s.users);
      var rest := ActiveAdmins(s.users) - {u};
      assert |rest| >= 1;
      var v :| v in rest;
      assert v in ActiveAdmins(t.users);
    } else {
      OtherRowsKeepAdmins(s.users, u, t.users[u]);
      assert t.users == s.users || t.users == s.users[u := t.users[u]];
    }
  }

  lemma ProvisionKeepsAnAdmin(s: State, p: Provider, k: Subject, name: string, role: string)
    requires Inv(s) && ActiveAdmins(s.users) != {} && Provisioned(s, p, k, name, true, role).Done?
    ensures ActiveAdmins(Provisioned(s, p, k, name, true, role).state.users) != {}
  {
    if k in s.links && s.links[k] in s.users {
      RoleKeepsAnAdmin(s, s.links[k], p, role);
    } else {
      var d := s.(links := s.links - {k});
      if name in s.byName && s.byName[name] in s.users {
        var u := s.byName[name];
        RoleKeepsAnAdmin(d, u, p, role);
        var t := ApplyRole(d, u, p, role).state;
        OtherRowsKeepAdmins(t.users, u, t.users[u].(source := Mixed));
      } else {
        OtherRowsKeepAdmins(s.users, s.next, User(name, role, false, false, false, Oidc));
      }
    }
  }

  lemma ChildRowsKeepAdmins(s: State, u: nat, x: User)
    requires u in s.users && !IsAdminRole(s.users[u].role)
    ensures ActiveAdmins(s.users) <= ActiveAdmins(SetUser(s, u, x).users)
  {
    AdminRoleIsProtected();
    OtherRowsKeepAdmins(s.users, u, x);
  }

  lemma StepKeepsAnAdmin(s: State, op: Operation)
    requires Inv(s) && ActiveAdmins(s.users) != {}
    ensures ActiveAdmins(Step(s, op).users) != {}
  {
    if Perform(s, op).Done? {
      match op {
        case CreateChild(name, _) =>
          OtherRowsKeepAdmins(s.users, s.next, User(name, "user", true, false, false, Local));
        case Provision(p, k, name, _, role) => ProvisionKeepsAnAdmin(s, p, k, name, role);
        case Unlink(u, k) => OtherRowsKeepAdmins(s.users, u, s.users[u].(source := Local));
        case ChangeOwnPassword(_, _, _) =>
        case _ => ChildRowsKeepAdmins(s, op.user, Step(s, op).users[op.user]);
      }
    }
  }

  /** If there was an active administrator, every sequence of operations leaves one. */
  lemma {:induction false} AnAdminAlwaysRemains(s: State, ops: seq<Operation>)
    requires Inv(s) && ActiveAdmins(s.users) != {}
    ensures ActiveAdmins(Exec(s, ops).users) != {}
  {
    if ops != [] {
      AnAdminAlwaysRemains(s, ops[..|ops| - 1]);
      AccountsKeepCredentials(s, ops[..|ops| - 1]);
      StepKeepsAnAdmin(Exec(s, ops[..|ops| - 1]), ops[|ops| - 1]);
    }
  }

  // ---------------------------------------------------------------------------
  // The transactions
  // ---------------------------------------------------------------------------

  /** The error an operation was refused with, if it was. */
  function ErrorOf(r: Result): Option<Error> {
    match r
    case Done(_) => None
    case Refused(e) => Some(e)
  }

  class AccountStore {
    var users: map<nat, User>
    var byName: map<string, nat>
    var links: map<Subject, nat>
    var next: nat

    function View(): State
      reads this
    {
      State(users, byName, links, next)
    }

    ghost predicate Valid()
      reads this
    {
      Inv(View())
    }

    /** Counts one row at a time, in any order. */
    method CountActiveAdmins() returns (n: nat)
      ensures n == |ActiveAdmins(users)|
    {
      n := 0;
      var todo := users.Keys;
      ghost var seen: set<nat> := {};
      while todo != {}
        invariant todo <= users.Keys && n == |seen| && seen !! todo
        invariant forall u :: u in seen <==> u in users && u !in todo && IsActiveAdmin(users[u])
        decreases |todo|
      {
        var u :| u in todo;
        if IsActiveAdmin(users[u]) {
          n := n + 1;
          seen := seen + {u};
        }
        todo := todo - {u};
      }
      assert seen == ActiveAdmins(users);
    }

    method ApplyAuthoritativeRole(u: nat, p: Provider, role: string) returns (e: Option<Error>)
      requires u in users
      modifies this`users
      ensures e == ErrorOf(ApplyRole(old(View()), u, p, role))
      ensures View() == if e.None? then ApplyRole(old(View()), u, p, role).state else old(View())
    {
      if !p.authoritativeRoles || users[u].role == role {
        return None;
      }
      if users[u].role == "admin" && role != "admin" {
        var admins := CountActiveAdmins();
        if admins <= 1 {
          return Some(LastAdminProtected);
        }
      }
      users := users[u := users[u].(role := role)];
      return None;
    }

    /** An existing link wins, then a username match, then creation; a failure undoes everything. */
    method ProvisionFromOidc(p: Provider, k: Subject, name: string, nameValid: bool, role: string)
      returns (e: Option<Error>)
      requires Valid()
      modifies this
      ensures Valid()
      ensures e == ErrorOf(Provisioned(old(View()), p, k, name, nameValid, role))
      ensures View() == Step(old(View()), Provision(p, k, name, nameValid, role))
    {
      StepKeeps(View(), Provision(p, k, name, nameValid, role));
      if !nameValid {
        return Some(NotProvisioned);
      }
      var saved := links;
      if k in links {
        var u := links[k];
        if u in users {
          if users[u].disabled || users[u].deleted {
            return Some(AccountDisabled);
          }
          e := ApplyAuthoritativeRole(u, p, role);
          return;
        }
      }
      assert k !in links ==> links - {k} == links;
      links := links - {k};
      e := ProvisionFresh(p, k, name, role);
      if e.Some? {
        links := saved;
      }
    }

    method ProvisionFresh(p: Provider, k: Subject, name: string, role: string) returns (e: Option<Error>)
      modifies this
      ensures e == ErrorOf(ProvisionUnlinked(old(View()), p, k, name, role))
      ensures View() == if e.None? then ProvisionUnlinked(old(View()), p, k, name, role).state else old(View())
    {
      if name in byName && byName[name] in users {
        var u := byName[name];
        if users[u].disabled || users[u].deleted {
          return Some(AccountDisabled);
        }
        e := ApplyAuthoritativeRole(u, p, role);
        if e.Some? {
          return;
        }
        links := links[k := u];
        if users[u].hasPassword && users[u].source == Local {
          users := users[u := users[u].(source := Mixed)];
        }
        return;
      }
      if !p.autoCreate {
        return Some(NotProvisioned);
      }
      users, byName := users[next := User(name, role, false, false, false, Oidc)], byName[name := next];
      links, next := links[k := next], next + 1;
      return None;
    }

    /** Refuses to take the only way in; a mixed account left with just its password is local again. */
    method UnlinkIdentity(u: nat, k: Subject) returns (e: Option<Error>)
      requires Valid()
      modifies this
      ensures Valid()
      ensures e == ErrorOf(Unlinked(old(View()), u, k)) && View() == Step(old(View()), Unlink(u, k))
    {
      StepKeeps(View(), Unlink(u, k));
      if u !in users {
        return Some(AccountNotFound);
      }
      if k !in links || links[k] != u {
        return Some(IdentityNotFound);
      }
      var rows := LinksOf(links, u);
      if !users[u].hasPassword && |rows| <= 1 {
        return Some(IdentityRequired);
      }
      links := links - {k};
      var remaining := LinksOf(links, u);
      if |remaining| == 0 && users[u].hasPassword && users[u].source == Mixed {
        users := users[u := users[u].(source := Local)];
      }
      return None;
    }
  }
}
