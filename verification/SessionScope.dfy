/** The company and branch scope a session carries through login, mirror mode, the branch and
    country switchers, membership refreshes and the `/auth/me` backfill. */
module SessionScope {
  import opened Common
  import opened SessionTypes

  datatype Result<+T> = Ok(value: T) | Refused(status: nat)

  // ---- The database, as far as scope goes -----------------------------------------------

  /** Branches and companies in the order their queries return them; every listed branch has a company. */
  datatype Org = Org(
    branches: seq<string>, groupOf: map<string, string>, groups: seq<string>, firstActive: Option<string>)

  /** What is re-read from `users` and from the effective permissions whenever a session is built. */
  datatype Profile = Profile(
    id: string, details: string, role: string, scopeGlobal: bool, orgWideHead: bool, permissions: set<string>)

  datatype User = User(
    profile: Profile, active: bool, primaryBranchId: Option<string>,
    memberships: seq<Membership>, countries: seq<Grant>)

  datatype Prior = Prior(group: Option<string>, branch: Option<string>, selected: Option<seq<string>>)

  /** `prior` is absent on sessions that began before it was recorded. */
  datatype MirroredBy = MirroredBy(id: string, prior: Option<Prior>)

  datatype Session = Session(
    profile: Profile,
    branch: Option<string>, group: Option<string>, selected: Option<seq<string>>,
    branchIds: seq<string>, currencyCodes: seq<string>, currency: Option<string>,
    mirroredBy: Option<MirroredBy>)

  // ---- Access rules ----------------------------------------------------------------------

  const ADMIN_LEVEL := {"SUPER_ADMIN", "ADMIN", "SUPPORT"}

  const NON_BRANCH_ASSIGNED := {
    "SUPER_ADMIN", "ADMIN", "SUPPORT", "FINANCE_OFFICER", "HEAD_OF_LOGISTICS", "STOCK_MANAGER", "TPL_MANAGER",
    "LOGISTICS_MANAGER", "HR_MANAGER", "AUDITOR"}

  const SCOPE_PERMISSIONS := {
    "branches.view_all", "branches.scope.global", "cs.scope.global", "marketing.scope.global",
    "logistics.scope.global"}

  predicate IsAdminLevel(role: string) {
    role in ADMIN_LEVEL
  }

  predicate IsMediaBuyer(role: string) {
    role == "MEDIA_BUYER"
  }

  /** Asked with different facts at different places: what is left out counts as absent. */
  predicate CanViewAllBranches(role: string, permissions: set<string>, orgWideHead: bool) {
    || role in NON_BRANCH_ASSIGNED || IsAdminLevel(role) || orgWideHead
    || exists p :: p in SCOPE_PERMISSIONS && p in permissions
  }

  /** Login asks with the user's row, which has no permissions. */
  predicate GlobalAtLogin(p: Profile) {
    CanViewAllBranches(p.role, {}, p.orgWideHead)
  }

  /** Mirror start and stop ask with role and permissions, without the org-wide-head flag. */
  predicate GlobalAtMirror(p: Profile) {
    CanViewAllBranches(p.role, p.permissions, false)
  }

  /** The branch switcher asks with the whole session. */
  predicate GlobalAtSwitch(p: Profile) {
    CanViewAllBranches(p.role, p.permissions, p.orgWideHead)
  }

  predicate CanViewAllCountries(p: Profile) {
    IsMediaBuyer(p.role) || IsAdminLevel(p.role) || "countries.view_all" in p.permissions
  }

  /** Admin-class users and holders of the global flag see every branch of a company. */
  predicate SeesEverything(p: Profile) {
    IsAdminLevel(p.role) || p.scopeGlobal
  }

  function Where(s: seq<string>, keep: string -> bool): seq<string> {
    if s == [] then [] else (if keep(s[0]) then [s[0]] else []) + Where(s[1..], keep)
  }

  function GroupBranches(org: Org, g: string): seq<string> {
    Where(org.branches, b => b in org.groupOf && org.groupOf[b] == g)
  }

  function GroupOf(org: Org, b: string): Option<string> {
    if b in org.branches && b in org.groupOf then Some(org.groupOf[b]) else None
  }

  /** The distinct companies of some branches. */
  function GroupsOf(org: Org, ids: seq<string>): seq<string> {
    Where(org.groups, g => exists b :: b in ids && GroupOf(org, b) == Some(g))
  }

  function Upper(s: string): string {
    seq(|s|, i requires 0 <= i < |s| => if 'a' <= s[i] <= 'z' then s[i] - 'a' + 'A' else s[i])
  }

  // ---- Landing on a branch and a company -------------------------------------------------

  /** Prefer the user's primary branch when it is a membership, else the first membership. */
  function FromMemberships(ms: seq<Membership>, primary: Option<string>): Option<string> {
    if ms == [] then None
    else if Truthy(primary) && primary.value in Ids(ms) then primary
    else Some(ms[0].branchId)
  }

  /** `global` is the answer of the access rule where the session is built. */
  function DefaultBranch(u: User, global: bool): Option<string> {
    if global then None
    else if IsMediaBuyer(u.profile.role) then (if |u.memberships| == 1 then Some(u.memberships[0].branchId) else None)
    else FromMemberships(u.memberships, u.primaryBranchId)
  }

  function DefaultGroup(org: Org, u: User, branch: Option<string>): Option<string> {
    if Truthy(branch) then GroupOf(org, branch.value)
    else
      var groups := GroupsOf(org, Ids(u.memberships));
      if groups != [] then Some(groups[0]) else None
  }

  /** The branches of a company that a user may view: never empty unless the company is. */
  function Permitted(org: Org, group: string, everything: bool, own: seq<string>): seq<string> {
    var all := GroupBranches(org, group);
    var mine := if everything || own == [] then all else Where(all, b => b in own);
    if mine != [] then mine else all
  }

  function Landed(org: Org, u: User, branch: Option<string>, group: Option<string>, mirror: Option<MirroredBy>)
    : Session
  {
    Session(u.profile, branch, group,
            if Truthy(group)
            then Some(Permitted(org, group.value, SeesEverything(u.profile), Ids(u.memberships)))
            else None,
            Ids(u.memberships), Codes(u.countries, group), None, mirror)
  }

  function LoggedIn(org: Org, u: User): Result<Session> {
    var global := GlobalAtLogin(u.profile);
    if !global && u.memberships == [] then Refused(401)
    else
      var branch := DefaultBranch(u, global);
      var g := DefaultGroup(org, u, branch);
      var first := !Truthy(g) && global && org.firstActive.Some?;
      Ok(Landed(org, u, branch, if first then org.firstActive else g, None))
  }

  // ---- Mirror mode ----------------------------------------------------------------------

  /** What a mirror start saves of the session it was admitted with. */
  function SavedBy(s: Session): MirroredBy {
    MirroredBy(s.profile.id, Some(Prior(s.group, s.branch, s.selected)))
  }

  function Mirrored(org: Org, actor: Session, target: Option<User>, allowed: bool): Result<Session> {
    if actor.mirroredBy.Some? then Refused(403)
    else if target.None? || !target.value.active then Refused(400)
    else if !allowed then Refused(403)
    else
      var u := target.value;
      var global := GlobalAtMirror(u.profile);
      if !global && u.memberships == [] then Refused(400)
      else
        var branch := DefaultBranch(u, global);
        Ok(Landed(org, u, branch, DefaultGroup(org, u, branch), Some(SavedBy(actor))))
  }

  function RestoredBranch(u: User, prior: Option<Prior>): Option<string> {
    var global := GlobalAtMirror(u.profile);
    if prior.None? then DefaultBranch(u, global)
    else if prior.value.branch.None? then (if global then None else DefaultBranch(u, global))
    else if global || prior.value.branch.value in Ids(u.memberships) then prior.value.branch
    else DefaultBranch(u, global)
  }

  function Unmirrored(s: Session, actor: Option<User>): Result<Session> {
    if s.mirroredBy.None? then Refused(400)
    else if actor.None? then Refused(400)
    else
      var u, prior := actor.value, s.mirroredBy.value.prior;
      Ok(Session(u.profile, RestoredBranch(u, prior),
                 if prior.Some? then prior.value.group else None,
                 if prior.Some? then prior.value.selected else None,
                 Ids(u.memberships), Codes(u.countries, None), None, None))
  }

  // ---- Switchers ------------------------------------------------------------------------

  /** `own` are the user's memberships, `lens` the branches of a media buyer's own data. */
  predicate MaySwitch(s: Session, branchId: Option<string>, picked: seq<string>, own: seq<string>, lens: seq<string>) {
    var global, buyer := GlobalAtSwitch(s.profile), IsMediaBuyer(s.profile.role);
    if branchId.None? && picked == [] then global || buyer
    else if branchId.None? then global || buyer || exists b :: b in picked && b in own
    else if Truthy(branchId) && buyer then branchId.value in lens
    else if Truthy(branchId) && !global then branchId.value in own
    else true
  }

  function SwitchedGroup(org: Org, s: Session, branchId: Option<string>, picked: seq<string>): Option<string> {
    var lookup := if branchId.Some? then branchId else if picked != [] then Some(picked[0]) else None;
    if Truthy(lookup) then GroupOf(org, lookup.value)
    else
      var groups := GroupsOf(org, s.branchIds);
      if |groups| == 1 then Some(groups[0]) else None
  }

  function SwitchedSelection(org: Org, s: Session, group: Option<string>, picked: seq<string>): Option<seq<string>> {
    var everything := SeesEverything(s.profile);
    var permitted := if Truthy(group) then Some(Permitted(org, group.value, everything, s.branchIds)) else None;
    if picked == [] then permitted
    else
      var kept := if permitted.Some? then Where(picked, b => b in permitted.value)
                  else if everything then picked
                  else Where(picked, b => b in s.branchIds);
      if kept != [] then Some(kept) else None
  }

  function KeptCurrency(currency: Option<string>, codes: seq<string>): Option<string> {
    if Truthy(currency) && exists c :: c in codes && Upper(c) == Upper(currency.value) then currency else None
  }

  function Switched(org: Org, s: Session, branchId: Option<string>, picked: seq<string>,
                    own: seq<string>, lens: seq<string>, countries: seq<Grant>): Result<Session> {
    if !MaySwitch(s, branchId, picked, own, lens) then Refused(403)
    else
      var group := SwitchedGroup(org, s, branchId, picked);
      var codes := Codes(countries, group);
      Ok(s.(branch := branchId, group := group, selected := SwitchedSelection(org, s, group, picked),
            currencyCodes := codes, currency := KeptCurrency(s.currency, codes)))
  }

  datatype Currency = Currency(code: string, groupId: Option<string>, active: bool)

  /** An active currency of the company; without a company, of none. Case does not matter. */
  predicate Offered(table: seq<Currency>, group: Option<string>, code: string) {
    var company := if Truthy(group) then group else None;
    exists c :: c in table && c.active && c.groupId == company && Upper(c.code) == Upper(code)
  }

  predicate Granted(codes: seq<string>, code: string) {
    exists c :: c in codes && Upper(c) == Upper(code)
  }

  /** Viewing no single country is always allowed. */
  predicate MayView(s: Session, code: Option<string>, table: seq<Currency>) {
    Truthy(code) ==>
      Offered(table, s.group, code.value) && (CanViewAllCountries(s.profile) || Granted(s.currencyCodes, code.value))
  }

  function SwitchedCurrency(s: Session, code: Option<string>, table: seq<Currency>): Result<Session> {
    if !MayView(s, code, table) then Refused(403)
    else Ok(s.(currency := if Truthy(code) then Some(Upper(code.value)) else None))
  }

  // ---- The backfill of `/auth/me` --------------------------------------------------------

  datatype Patch = Patch(group: string, selected: Option<seq<string>>)

  /** Computed from the session as the request saw it, with the profile it just loaded. */
  function Backfill(org: Org, seen: Session, p: Profile): Option<Patch> {
    var everything := SeesEverything(p);
    if !Truthy(seen.group) then
      var groups := GroupsOf(org, seen.branchIds);
      var g := if |groups| == 1 then Some(groups[0]) else None;
      var g' := if !Truthy(g) && everything then org.firstActive else g;
      if !Truthy(g') then None
      else if !Truthy(seen.branch) && GroupBranches(org, g'.value) != [] then
        Some(Patch(g'.value, Some(Permitted(org, g'.value, everything, seen.branchIds))))
      else Some(Patch(g'.value, seen.selected))
    else if !Truthy(seen.branch) && (seen.selected.None? || seen.selected.value == [])
            && GroupBranches(org, seen.group.value) != [] then
      Some(Patch(seen.group.value, Some(Permitted(org, seen.group.value, everything, seen.branchIds))))
    else None
  }

  function Patched(s: Session, p: Patch): Session {
    s.(group := Some(p.group), selected := p.selected)
  }

  // ---- The service, step by step ---------------------------------------------------------

  class AuthService {
    const org: Org
    var users: map<string, User>
    var sessions: map<string, Session>

    constructor (org: Org, users: map<string, User>)
      ensures this.org == org && this.users == users && sessions == map[]
    {
      this.org, this.users, sessions := org, users, map[];
    }

    method ResolveGroup(u: User, branch: Option<string>) returns (group: Option<string>)
      ensures group == DefaultGroup(org, u, branch)
    {
      group := None;
      if Truthy(branch) {
        group := GroupOf(org, branch.value);
      } else {
        var valid := GroupsOf(org, Ids(u.memberships));
        if |valid| > 0 { group := Some(valid[0]); }
      }
    }

    method ResolveBranch(u: User, global: bool) returns (branch: Option<string>)
      ensures branch == DefaultBranch(u, global)
    {
      branch := None;
      if !global {
        if IsMediaBuyer(u.profile.role) {
          if |u.memberships| == 1 { branch := Some(u.memberships[0].branchId); }
        } else {
          branch := FromMemberships(u.memberships, u.primaryBranchId);
        }
      }
    }

    method Login(token: string, userId: string) returns (r: Result<Session>)
      requires userId in users
      modifies this`sessions
      ensures r == LoggedIn(org, users[userId])
      ensures sessions == if r.Ok? then old(sessions)[token := r.value] else old(sessions)
    {
      var u := users[userId];
      var global := CanViewAllBranches(u.profile.role, {}, u.profile.orgWideHead);
      if !global && u.memberships == [] { return Refused(401); }
      var branch := ResolveBranch(u, global);
      var group := ResolveGroup(u, branch);
      if !Truthy(group) && global {
        if org.firstActive.Some? { group := org.firstActive; }
      }
      var session := Landed(org, u, branch, group, None);
      sessions := sessions[token := session];
      return Ok(session);
    }

    method StartMirror(token: string, actor: Session, targetId: string, allowed: bool) returns (r: Result<Session>)
      modifies this`sessions
      ensures r == Mirrored(org, actor, if targetId in users then Some(users[targetId]) else None, allowed)
      ensures sessions == if r.Ok? then old(sessions)[token := r.value] else old(sessions)
    {
      if actor.mirroredBy.Some? { return Refused(403); }
      if targetId !in users || !users[targetId].active { return Refused(400); }
      if !allowed { return Refused(403); }
      var target := users[targetId];
      var global := CanViewAllBranches(target.profile.role, target.profile.permissions, false);
      if !global && target.memberships == [] { return Refused(400); }
      var branch := ResolveBranch(target, global);
      var group := ResolveGroup(target, branch);
      var prior := Prior(actor.group, actor.branch, actor.selected);
      var session := Landed(org, target, branch, group, Some(MirroredBy(actor.profile.id, Some(prior))));
      sessions := sessions[token := session];
      return Ok(session);
    }

    method StopMirror(token: string, current: Session) returns (r: Result<Session>)
      modifies this`sessions
      ensures r == Unmirrored(current, if current.mirroredBy.Some? && current.mirroredBy.value.id in users
                                       then Some(users[current.mirroredBy.value.id]) else None)
      ensures sessions == if r.Ok? then old(sessions)[token := r.value] else old(sessions)
    {
      if current.mirroredBy.None? { return Refused(400); }
      var mirror := current.mirroredBy.value;
      if mirror.id !in users { return Refused(400); }
      var u := users[mirror.id];
      var global := CanViewAllBranches(u.profile.role, u.profile.permissions, false);
      var branch := ResolveBranch(u, global);
      if mirror.prior.Some? {
        if mirror.prior.value.branch.None? {
          if global { branch := None; }
        } else if global || mirror.prior.value.branch.value in Ids(u.memberships) {
          branch := mirror.prior.value.branch;
        }
      }
      var group, selected := None, None;
      if mirror.prior.Some? { group, selected := mirror.prior.value.group, mirror.prior.value.selected; }
      var restored := Session(u.profile, branch, group, selected, Ids(u.memberships), Codes(u.countries, None),
                              None, None);
      sessions := sessions[token := restored];
      return Ok(restored);
    }

    method SwitchBranch(token: string, branchId: Option<string>, picked: seq<string>,
                        own: seq<string>, lens: seq<string>, countries: seq<Grant>) returns (r: Result<Session>)
      modifies this`sessions
      ensures r == if token in old(sessions)
                   then Switched(org, old(sessions)[token], branchId, picked, own, lens, countries)
                   else Refused(401)
      ensures sessions == if r.Ok? then old(sessions)[token := r.value] else old(sessions)
    {
      if token !in sessions { return Refused(401); }
      var user := sessions[token];
      if !MaySwitch(user, branchId, picked, own, lens) { return Refused(403); }

      var group: Option<string> := None;
      var lookup := if branchId.Some? then branchId else if picked != [] then Some(picked[0]) else None;
      if Truthy(lookup) {
        group := GroupOf(org, lookup.value);
      } else {
        var rows := GroupsOf(org, user.branchIds);
        if |rows| == 1 { group := Some(rows[0]); }
      }

      var everything := SeesEverything(user.profile);
      var permitted: Option<seq<string>> := None;
      if Truthy(group) { permitted := Some(Permitted(org, group.value, everything, user.branchIds)); }

      var selected: Option<seq<string>>;
      if picked != [] {
        var kept := picked;
        if permitted.Some? { kept := Where(picked, b => b in permitted.value); }
        else if !everything { kept := Where(picked, b => b in user.branchIds); }
        selected := if kept != [] then Some(kept) else None;
      } else {
        selected := permitted;
      }

      var codes := Codes(countries, group);
      var updated := user.(branch := branchId, group := group, selected := selected, currencyCodes := codes,
                           currency := KeptCurrency(user.currency, codes));
      sessions := sessions[token := updated];
      return Ok(updated);
    }

    /** Succeeds exactly if there is a session and either no country is asked for, or its currency
        is offered in the session's company and granted to the user; only the viewed currency
        changes. */
    method SwitchCurrency(token: string, code: Option<string>, table: seq<Currency>) returns (r: Result<Session>)
      modifies this`sessions
      ensures r.Ok? <==> token in old(sessions) && MayView(old(sessions)[token], code, table)
      ensures r.Ok? ==>
        r.value == old(sessions)[token].(currency := if Truthy(code) then Some(Upper(code.value)) else None)
      ensures r.Refused? ==> r.status == if token in old(sessions) then 403 else 401
      ensures sessions == if r.Ok? then old(sessions)[token := r.value] else old(sessions)
    {
      if token !in sessions { return Refused(401); }
      var user := sessions[token];
      if !Truthy(code) {
        sessions := sessions[token := user.(currency := None)];
        return Ok(sessions[token]);
      }
      var wanted := Upper(code.value);
      var company := if Truthy(user.group) then user.group else None;
      var activeSet := set c | c in table && c.active && c.groupId == company :: Upper(c.code);
      if wanted !in activeSet { return Refused(403); }
      if !CanViewAllCountries(user.profile) {
        var allowed := set c | c in user.currencyCodes :: Upper(c);
        if wanted !in allowed { return Refused(403); }
      }
      sessions := sessions[token := user.(currency := Some(wanted))];
      r := Ok(sessions[token]);
    }

    /** `patchSessionGroupScope`: re-reads the session, which may have moved on meanwhile. */
    method PatchGroupScope(token: string, p: Patch)
      modifies this`sessions
      ensures sessions == if token in old(sessions)
                          then old(sessions)[token := Patched(old(sessions)[token], p)] else old(sessions)
    {
      if token !in sessions { return; }
      sessions := sessions[token := Patched(sessions[token], p)];
    }
  }

  // ---- Runs of one session ---------------------------------------------------------------

  /** `at` is the position in the session's history of the state the request works on: what it was
      admitted with, or what it read before it wrote. The backfill computes from one state and,
      reading the session again, patches another. */
  datatype Op =
    | StartsMirror(at: nat, target: Option<User>, allowed: bool)
    | StopsMirror(at: nat, actor: Option<User>)
    | SwitchesBranch(at: nat, branchId: Option<string>, picked: seq<string>, own: seq<string>, lens: seq<string>,
                     countries: seq<Grant>)
    | SwitchesCurrency(at: nat, code: Option<string>, table: seq<Currency>)
    | RefreshesBranches(at: nat, ms: seq<Membership>)
    | RefreshesCountries(at: nat, gs: seq<Grant>)
    | Backfills(at: nat, seen: nat, profile: Profile)

  predicate Possible(history: seq<Session>, op: Op) {
    op.at < |history| && (op.Backfills? ==> op.seen < |history|)
  }

  /** What the request writes over whatever the session has become meanwhile, if anything. */
  function Written(org: Org, history: seq<Session>, op: Op): Option<Session>
    requires Possible(history, op)
  {
    var s := history[op.at];
    match op
    case StartsMirror(_, target, allowed) => AsWritten(Mirrored(org, s, target, allowed))
    case StopsMirror(_, actor) => AsWritten(Unmirrored(s, actor))
    case SwitchesBranch(_, b, picked, own, lens, countries) =>
      AsWritten(Switched(org, s, b, picked, own, lens, countries))
    case SwitchesCurrency(_, code, table) => AsWritten(SwitchedCurrency(s, code, table))
    case RefreshesBranches(_, ms) => Some(s.(branchIds := Ids(ms), branch := Reconciled(s.branch, ms)))
    case RefreshesCountries(_, gs) => Some(s.(currencyCodes := RefreshedCodes(gs, s.group)))
    case Backfills(_, seen, profile) =>
      var p := Backfill(org, history[seen], profile);
      if p.Some? then Some(Patched(s, p.value)) else None
  }

  function AsWritten(r: Result<Session>): Option<Session> {
    if r.Ok? then Some(r.value) else None
  }

  function Next(org: Org, history: seq<Session>, op: Op): Session
    requires Possible(history, op)
  {
    var w := Written(org, history, op);
    if w.Some? then w.value else history[|history| - 1]
  }

  ghost predicate Legal(org: Org, history: seq<Session>, ops: seq<Op>)
    decreases |ops|
  {
    ops != [] ==> Possible(history, ops[0]) && Legal(org, history + [Next(org, history, ops[0])], ops[1..])
  }

  ghost function Run(org: Org, history: seq<Session>, ops: seq<Op>): seq<Session>
    requires Legal(org, history, ops)
    decreases |ops|
  {
    if ops == [] then history else Run(org, history + [Next(org, history, ops[0])], ops[1..])
  }

  // ---- Invariant ------------------------------------------------------------------------

  /** A branch selection needs a company and lies inside it. */
  predicate Inside(org: Org, group: Option<string>, selected: Option<seq<string>>) {
    selected.Some? ==> Truthy(group) && forall b :: b in selected.value ==> GroupOf(org, b) == group
  }

  predicate SavedInside(org: Org, m: MirroredBy) {
    m.prior.Some? ==> Inside(org, m.prior.value.group, m.prior.value.selected)
  }

  predicate ScopeOk(org: Org, s: Session) {
    && Inside(org, s.group, s.selected)
    && (s.mirroredBy.Some? ==> SavedInside(org, s.mirroredBy.value))
  }

  predicate KnownBranches(org: Org, op: Op) {
    op.SwitchesBranch? && op.picked != [] ==>
      var lookup := if op.branchId.Some? then op.branchId.value else op.picked[0];
      lookup != "" && GroupOf(org, lookup).Some?
  }

  predicate NamedGroups(org: Org) {
    forall b :: b in org.groupOf ==> org.groupOf[b] != ""
  }

  lemma {:induction false} WhereMember(s: seq<string>, keep: string -> bool, x: string)
    ensures x in Where(s, keep) <==> x in s && keep(x)
  {
    if s != [] {
      WhereMember(s[1..], keep, x);
      assert s == [s[0]] + s[1..];
    }
  }

  lemma PermittedInside(org: Org, group: string, everything: bool, own: seq<string>, b: string)
    requires b in Permitted(org, group, everything, own)
    ensures GroupOf(org, b) == Some(group)
    ensures !everything && (exists x :: x in own && GroupOf(org, x) == Some(group)) ==> b in own
  {
    var all := GroupBranches(org, group);
    WhereMember(org.branches, b => b in org.groupOf && org.groupOf[b] == group, b);
    WhereMember(all, x => x in own, b);
    if !everything && exists x :: x in own && GroupOf(org, x) == Some(group) {
      var x :| x in own && GroupOf(org, x) == Some(group);
      WhereMember(org.branches, b => b in org.groupOf && org.groupOf[b] == group, x);
      WhereMember(all, x => x in own, x);
    }
  }

  lemma PermittedSelection(org: Org, group: string, everything: bool, own: seq<string>)
    requires group != ""
    ensures Inside(org, Some(group), Some(Permitted(org, group, everything, own)))
  {
    forall b | b in Permitted(org, group, everything, own) ensures GroupOf(org, b) == Some(group) {
      PermittedInside(org, group, everything, own, b);
    }
  }

  lemma LandedOk(org: Org, u: User, branch: Option<string>, group: Option<string>, mirror: Option<MirroredBy>)
    requires mirror.Some? ==> SavedInside(org, mirror.value)
    ensures ScopeOk(org, Landed(org, u, branch, group, mirror))
  {
    if Truthy(group) {
      PermittedSelection(org, group.value, SeesEverything(u.profile), Ids(u.memberships));
    }
  }

  lemma SelectionInside(org: Org, s: Session, group: Option<string>, picked: seq<string>)
    requires Truthy(group)
    ensures Inside(org, group, SwitchedSelection(org, s, group, picked))
  {
    var everything := SeesEverything(s.profile);
    var permitted := Permitted(org, group.value, everything, s.branchIds);
    PermittedSelection(org, group.value, everything, s.branchIds);
    forall b | b in Where(picked, b => b in permitted) ensures GroupOf(org, b) == group {
      WhereMember(picked, b => b in permitted, b);
    }
  }

  function LookedUp(branchId: Option<string>, picked: seq<string>): Option<string> {
    if branchId.Some? then branchId else if picked != [] then Some(picked[0]) else None
  }

  /** The branch that a switch looks up is in the database; without one, the user's branches are
      all of one company. */
  predicate CompanyFound(org: Org, s: Session, branchId: Option<string>, picked: seq<string>) {
    var lookup := LookedUp(branchId, picked);
    if Truthy(lookup) then GroupOf(org, lookup.value).Some? else |GroupsOf(org, s.branchIds)| == 1
  }

  /** An unfiltered pick: the user sees everything, or one of the picked branches is their own. */
  predicate PickSurvives(s: Session, picked: seq<string>) {
    picked != [] && (SeesEverything(s.profile) || exists b :: b in picked && b in s.branchIds)
  }

  lemma FoundIff(org: Org, s: Session, branchId: Option<string>, picked: seq<string>)
    requires NamedGroups(org)
    ensures Truthy(SwitchedGroup(org, s, branchId, picked)) <==> CompanyFound(org, s, branchId, picked)
  {
    var groups := GroupsOf(org, s.branchIds);
    if !Truthy(LookedUp(branchId, picked)) && |groups| == 1 {
      assert groups[0] in groups;
      WhereMember(org.groups, g => exists b :: b in s.branchIds && GroupOf(org, b) == Some(g), groups[0]);
      var b :| b in s.branchIds && GroupOf(org, b) == Some(groups[0]);
    }
  }

  lemma SurvivesIff(org: Org, s: Session, picked: seq<string>)
    ensures SwitchedSelection(org, s, None, picked).Some? <==> PickSurvives(s, picked)
  {
    var mine := Where(picked, b => b in s.branchIds);
    if mine != [] {
      assert mine[0] in mine;
      WhereMember(picked, b => b in s.branchIds, mine[0]);
    }
    if b :| b in picked && b in s.branchIds { WhereMember(picked, b => b in s.branchIds, b); }
  }

  /** A switch keeps the selection inside a company exactly when the branch it looks up is in the
      database (or, without one, the user's branches are of one company), or nothing is picked,
      or nothing picked survives because the user is not global and owns none of it. */
  lemma SwitchScopeIff(org: Org, s: Session, branchId: Option<string>, picked: seq<string>)
    requires NamedGroups(org)
    ensures var group := SwitchedGroup(org, s, branchId, picked);
            Inside(org, group, SwitchedSelection(org, s, group, picked))
            <==> CompanyFound(org, s, branchId, picked) || !PickSurvives(s, picked)
  {
    var group := SwitchedGroup(org, s, branchId, picked);
    FoundIff(org, s, branchId, picked);
    if Truthy(group) {
      SelectionInside(org, s, group, picked);
    } else {
      assert SwitchedSelection(org, s, group, picked) == SwitchedSelection(org, s, None, picked);
      SurvivesIff(org, s, picked);
    }
  }

  /** An administrator who picks a branch that is not in the database: the switch is accepted and
      the selection belongs to no company. */
  lemma UnknownPickEscapes(x: string)
    requires x != ""
    ensures var org := Org([], map[], [], None);
            var p := Profile("admin", "", "ADMIN", false, false, {});
            var s := Session(p, None, None, None, [], [], None, None);
            var r := Switched(org, s, None, [x], [], [], []);
            && NamedGroups(org) && ScopeOk(org, s)
            && r.Ok? && r.value.group.None? && r.value.selected == Some([x]) && !ScopeOk(org, r.value)
  {
    assert [x][0] == x;
  }

  lemma BackfillInside(org: Org, seen: Session, p: Profile)
    requires ScopeOk(org, seen) && Backfill(org, seen, p).Some?
    ensures Inside(org, Some(Backfill(org, seen, p).value.group), Backfill(org, seen, p).value.selected)
  {
    var patch := Backfill(org, seen, p).value;
    var everything := SeesEverything(p);
    PermittedSelection(org, patch.group, everything, seen.branchIds);
  }

  lemma SwitchedOk(org: Org, s: Session, op: Op)
    requires NamedGroups(org) && ScopeOk(org, s) && op.SwitchesBranch? && KnownBranches(org, op)
    requires Switched(org, s, op.branchId, op.picked, op.own, op.lens, op.countries).Ok?
    ensures ScopeOk(org, Switched(org, s, op.branchId, op.picked, op.own, op.lens, op.countries).value)
  {
    SwitchScopeIff(org, s, op.branchId, op.picked);
  }

  lemma WrittenOk(org: Org, history: seq<Session>, op: Op)
    requires NamedGroups(org) && Possible(history, op) && KnownBranches(org, op)
    requires forall s :: s in history ==> ScopeOk(org, s)
    requires Written(org, history, op).Some?
    ensures ScopeOk(org, Written(org, history, op).value)
  {
    var s := history[op.at];
    assert s in history;
    match op
    case StartsMirror(_, target, allowed) =>
      var u := target.value;
      var branch := DefaultBranch(u, GlobalAtMirror(u.profile));
      LandedOk(org, u, branch, DefaultGroup(org, u, branch), Some(SavedBy(s)));
    case SwitchesBranch(_, _, _, _, _, _) => SwitchedOk(org, s, op);
    case Backfills(_, seen, profile) =>
      assert history[seen] in history;
      BackfillInside(org, history[seen], profile);
    case _ =>
  }

  lemma NextOk(org: Org, history: seq<Session>, op: Op)
    requires NamedGroups(org) && Possible(history, op) && KnownBranches(org, op)
    requires forall s :: s in history ==> ScopeOk(org, s)
    ensures ScopeOk(org, Next(org, history, op))
  {
    assert history[|history| - 1] in history;
    if Written(org, history, op).Some? { WrittenOk(org, history, op); }
  }

  /** In every state of every session: a branch selection implies a company and lies inside it.
      Any request may act on, and write back, a state that has been overtaken. */
  lemma {:induction false} ScopeInvariant(org: Org, history: seq<Session>, ops: seq<Op>)
    requires NamedGroups(org) && Legal(org, history, ops)
    requires forall i :: 0 <= i < |ops| ==> KnownBranches(org, ops[i])
    requires forall s :: s in history ==> ScopeOk(org, s)
    ensures forall s :: s in Run(org, history, ops) ==> ScopeOk(org, s)
    decreases |ops|
  {
    if ops != [] {
      NextOk(org, history, ops[0]);
      ScopeInvariant(org, history + [Next(org, history, ops[0])], ops[1..]);
    }
  }

  /** Every session starts inside its scope. */
  lemma LoginStartsInside(org: Org, u: User)
    requires LoggedIn(org, u).Ok?
    ensures ScopeOk(org, LoggedIn(org, u).value)
    ensures LoggedIn(org, u).value.mirroredBy.None?
  {
    var global := GlobalAtLogin(u.profile);
    var branch := DefaultBranch(u, global);
    var g := DefaultGroup(org, u, branch);
    var first := !Truthy(g) && global && org.firstActive.Some?;
    LandedOk(org, u, branch, if first then org.firstActive else g, None);
  }

  predicate OwnsIn(org: Org, s: Session, group: Option<string>) {
    !SeesEverything(s.profile) && Truthy(group)
    && exists x :: x in s.branchIds && GroupOf(org, x) == group
  }

  /** Straight after a switch, a user who is not global and owns a branch of the company sees
      only own branches, and the viewed currency is none or granted in that company. */
  lemma SwitchStaysOwn(org: Org, s: Session, branchId: Option<string>, picked: seq<string>,
                       own: seq<string>, lens: seq<string>, countries: seq<Grant>, b: string)
    requires Switched(org, s, branchId, picked, own, lens, countries).Ok?
    ensures var r := Switched(org, s, branchId, picked, own, lens, countries).value;
            && (OwnsIn(org, s, r.group) && r.selected.Some? && b in r.selected.value ==> b in s.branchIds)
            && (r.currency.Some? ==> exists g :: g in countries && (Truthy(r.group) ==> g.groupId == r.group.value)
                                       && Upper(g.currencyCode) == Upper(r.currency.value))
  {
    var r := Switched(org, s, branchId, picked, own, lens, countries).value;
    if Truthy(r.group) && r.selected.Some? && b in r.selected.value {
      var everything := SeesEverything(s.profile);
      var permitted := Permitted(org, r.group.value, everything, s.branchIds);
      WhereMember(picked, b => b in permitted, b);
      PermittedInside(org, r.group.value, everything, s.branchIds, b);
    }
    if r.currency.Some? {
      var c :| c in r.currencyCodes && Upper(c) == Upper(r.currency.value);
      CodesGranted(countries, r.group, c);
    }
  }

  // ---- The mirror round trip --------------------------------------------------------------

  /** The session has been mirrored by `m` since `base`, and not at all before. */
  predicate MirroredSince(history: seq<Session>, m: MirroredBy, base: nat) {
    && base < |history|
    && (forall i :: 0 <= i < base ==> history[i].mirroredBy.None?)
    && (forall i :: base <= i < |history| ==> history[i].mirroredBy == Some(m))
  }

  /** A request that read the session before the mirror started and writes it after: it puts the
      unmirrored session back. A second start may save the same as the first. */
  predicate Overtaken(org: Org, history: seq<Session>, op: Op, m: MirroredBy, base: nat) {
    && Possible(history, op) && op.at < base && Written(org, history, op).Some?
    && !(op.StartsMirror? && SavedBy(history[op.at]) == m)
  }

  /** One request other than a stop keeps who is mirroring and what was saved exactly if it is
      not overtaken. */
  lemma MirrorKeptIff(org: Org, history: seq<Session>, op: Op, m: MirroredBy, base: nat)
    requires MirroredSince(history, m, base) && Possible(history, op) && !op.StopsMirror?
    ensures Next(org, history, op).mirroredBy == Some(m) <==> !Overtaken(org, history, op, m, base)
  {
    assert op.at < base ==> history[op.at].mirroredBy.None?;
    assert op.at >= base ==> history[op.at].mirroredBy == Some(m);
  }

  ghost predicate NoneOvertaken(org: Org, history: seq<Session>, ops: seq<Op>, m: MirroredBy, base: nat)
    requires Legal(org, history, ops)
    decreases |ops|
  {
    ops != [] ==>
      && !Overtaken(org, history, ops[0], m, base)
      && NoneOvertaken(org, history + [Next(org, history, ops[0])], ops[1..], m, base)
  }

  lemma {:induction false} RunExtends(org: Org, history: seq<Session>, ops: seq<Op>)
    requires Legal(org, history, ops)
    ensures history <= Run(org, history, ops)
    decreases |ops|
  {
    if ops != [] { RunExtends(org, history + [Next(org, history, ops[0])], ops[1..]); }
  }

  /** Without a stop, every later state is mirrored as at the start exactly if no request that read
      the session before the start writes it after. */
  lemma {:induction false} MirrorKept(org: Org, history: seq<Session>, ops: seq<Op>, m: MirroredBy, base: nat)
    requires Legal(org, history, ops) && MirroredSince(history, m, base)
    requires forall i :: 0 <= i < |ops| ==> !ops[i].StopsMirror?
    ensures MirroredSince(Run(org, history, ops), m, base) <==> NoneOvertaken(org, history, ops, m, base)
    decreases |ops|
  {
    if ops != [] {
      var s := Next(org, history, ops[0]);
      MirrorKeptIff(org, history, ops[0], m, base);
      if s.mirroredBy == Some(m) {
        MirrorKept(org, history + [s], ops[1..], m, base);
      } else {
        RunExtends(org, history + [s], ops[1..]);
        var h := Run(org, history + [s], ops[1..]);
        assert h[|history|] == (history + [s])[|history|] == s;
      }
    }
  }

  lemma DefaultIsOwn(u: User, global: bool)
    ensures DefaultBranch(u, global).Some? ==> DefaultBranch(u, global).value in Ids(u.memberships)
  {
    if u.memberships != [] {
      assert Ids(u.memberships)[0] == u.memberships[0].branchId;
    }
  }

  /** The stop itself finds the actor able to stand on the branch: by its own answer of the access
      rule, without which it takes memberships only, and "All Branches" only for someone whom it
      would not put on any. */
  predicate MayReturn(u: User, branch: Option<string>) {
    || GlobalAtMirror(u.profile)
    || if branch.Some? then branch.value in Ids(u.memberships) else DefaultBranch(u, false).None?
  }

  /** Start, any switches, refreshes, backfills and refused starts, then stop: the actor is back,
      with their row and permissions as they are now, and with company and branch selection as
      before; the current branch too, exactly when the stop finds that they may stand on it. */
  lemma MirrorRoundTrip(org: Org, s: Session, target: Option<User>, allowed: bool, before: seq<Session>, ops: seq<Op>,
                        actor: User)
    requires Mirrored(org, s, target, allowed).Ok? && actor.profile.id == s.profile.id
    requires forall i :: 0 <= i < |before| ==> before[i].mirroredBy.None?
    requires var h := before + [Mirrored(org, s, target, allowed).value];
             && Legal(org, h, ops) && (forall i :: 0 <= i < |ops| ==> !ops[i].StopsMirror?)
             && NoneOvertaken(org, h, ops, SavedBy(s), |before|)
    ensures var h := Run(org, before + [Mirrored(org, s, target, allowed).value], ops);
            && h != []
            && var r := Unmirrored(h[|h| - 1], Some(actor));
            && h[|h| - 1].mirroredBy.Some? && h[|h| - 1].mirroredBy.value.id == s.profile.id
            && r.Ok? && r.value.mirroredBy.None?
            && r.value.profile == actor.profile && r.value.group == s.group && r.value.selected == s.selected
            && r.value.branchIds == Ids(actor.memberships)
            && (r.value.branch == s.branch <==> MayReturn(actor, s.branch))
  {
    var h := before + [Mirrored(org, s, target, allowed).value];
    MirrorKept(org, h, ops, SavedBy(s), |before|);
    RunExtends(org, h, ops);
    RestoredIff(actor, s);
  }

  lemma RestoredIff(actor: User, s: Session)
    ensures RestoredBranch(actor, SavedBy(s).prior) == s.branch <==> MayReturn(actor, s.branch)
  {
    DefaultIsOwn(actor, GlobalAtMirror(actor.profile));
  }

  /** The access rule's answers differ exactly for a head by flag alone. */
  predicate HeadByFlagAlone(p: Profile) {
    p.orgWideHead && !GlobalAtMirror(p)
  }

  lemma SwitchAnswerIff(p: Profile)
    ensures GlobalAtSwitch(p) <==> GlobalAtMirror(p) || p.orgWideHead
    ensures GlobalAtLogin(p) && !GlobalAtMirror(p) <==> HeadByFlagAlone(p)
  {
  }

  /** Someone who mirrors straight after login, and whose row, permissions and memberships stay as
      they are, gets their branch back exactly unless they are a head by flag alone whom the
      default would put on a branch. */
  lemma LoginBranchBackIff(org: Org, u: User)
    requires LoggedIn(org, u).Ok?
    ensures MayReturn(u, LoggedIn(org, u).value.branch)
       <==> !HeadByFlagAlone(u.profile) || DefaultBranch(u, false).None?
  {
    SwitchAnswerIff(u.profile);
    DefaultIsOwn(u, GlobalAtLogin(u.profile));
  }

  /** Someone whom a switch let stand where they are, row, permissions and memberships unchanged,
      loses it exactly in these cases, none of them global to the mirror: a head by flag alone or a
      media buyer on a branch that is not theirs; an empty branch id, which the switch does not
      check; and, on "All Branches", anyone whom the default puts on a branch: a head by flag
      alone, a media buyer with one branch, or whoever picked several branches. */
  lemma SwitchBranchLostIff(s: Session, u: User, branchId: Option<string>, picked: seq<string>, lens: seq<string>)
    requires u.profile == s.profile && MaySwitch(s, branchId, picked, Ids(u.memberships), lens)
    ensures !MayReturn(u, branchId)
       <==> !GlobalAtMirror(u.profile) &&
            if branchId.Some? then
              branchId.value !in Ids(u.memberships)
              && (HeadByFlagAlone(u.profile) || IsMediaBuyer(u.profile.role) || branchId.value == "")
            else
              DefaultBranch(u, false).Some?
              && (HeadByFlagAlone(u.profile) || IsMediaBuyer(u.profile.role)
                  || exists b :: b in picked && b in Ids(u.memberships))
  {
    SwitchAnswerIff(u.profile);
  }

  /** One input: a head of marketing by flag, without any of the five scope permissions and with
      one membership. Login lands on "All Branches", the switcher lets them clear the branch; after
      a mirror and its stop they stand on their own branch. */
  lemma HeadLosesAllBranches(org: Org, b: string, target: User)
    requires target.active && GlobalAtMirror(target.profile)
    ensures var p := Profile("head", "", "HEAD_OF_MARKETING", false, true, {});
            var u := User(p, true, None, [Membership(b, true)], []);
            var s := LoggedIn(org, u);
            && s.Ok? && s.value.branch.None? && MaySwitch(s.value, None, [], [b], [])
            && Mirrored(org, s.value, Some(target), true).Ok?
            && Unmirrored(Mirrored(org, s.value, Some(target), true).value, Some(u)).Ok?
            && Unmirrored(Mirrored(org, s.value, Some(target), true).value, Some(u)).value.branch == Some(b)
  {
    var p := Profile("head", "", "HEAD_OF_MARKETING", false, true, {});
    var u := User(p, true, None, [Membership(b, true)], []);
    assert !GlobalAtMirror(p) && GlobalAtLogin(p);
    assert DefaultBranch(u, false) == Some(b);
  }

  /** A mirroring session cannot start another mirror, whoever the target is. */
  lemma NestedMirrorRefused(org: Org, s: Session, target: Option<User>, allowed: bool,
                            again: Option<User>, allowedAgain: bool)
    requires Mirrored(org, s, target, allowed).Ok?
    ensures Mirrored(org, Mirrored(org, s, target, allowed).value, again, allowedAgain) == Refused(403)
  {
  }

  /** One input: a switch admitted before the mirror starts writes after it, and the session is the
      actor's own again, with nothing saved. */
  lemma OvertakenSwitchEscapes(org: Org, s: Session, target: Option<User>, code: Option<string>)
    requires s.mirroredBy.None? && Mirrored(org, s, target, true).Ok? && !Truthy(code)
    ensures var h := [s, Mirrored(org, s, target, true).value];
            var op := SwitchesCurrency(0, code, []);
            && Possible(h, op) && Overtaken(org, h, op, SavedBy(s), 1)
            && Next(org, h, op) == s.(currency := None)
  {
  }
}
