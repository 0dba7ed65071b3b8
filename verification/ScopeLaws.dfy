/** What login, mirror, the switchers and the backfill put into a session, fact by fact. */
module ScopeLaws {
  import opened Common
  import opened SessionTypes
  import opened SessionScope

  // ---- Who counts as global ---------------------------------------------------------------

  /** Login looks at the role and the org-wide-head flag, mirror start and stop at the role and the
      five permissions, the branch switcher at all three. Seeing every branch of a company is another
      matter: for admin-level roles and by a flag of its own. */
  lemma GlobalAre(p: Profile)
    ensures var byRole := p.role in {"SUPER_ADMIN", "ADMIN", "SUPPORT", "FINANCE_OFFICER", "HEAD_OF_LOGISTICS",
                                     "STOCK_MANAGER", "TPL_MANAGER", "LOGISTICS_MANAGER", "HR_MANAGER", "AUDITOR"};
            var byPermission := p.permissions * {"branches.view_all", "branches.scope.global", "cs.scope.global",
                                                 "marketing.scope.global", "logistics.scope.global"} != {};
            && (GlobalAtLogin(p) <==> byRole || p.orgWideHead)
            && (GlobalAtMirror(p) <==> byRole || byPermission)
            && (GlobalAtSwitch(p) <==> byRole || byPermission || p.orgWideHead)
            && (SeesEverything(p) <==> p.role in {"SUPER_ADMIN", "ADMIN", "SUPPORT"} || p.scopeGlobal)
  {
    if x :| x in SCOPE_PERMISSIONS && x in p.permissions { assert x in p.permissions * SCOPE_PERMISSIONS; }
  }

  // ---- Landing ----------------------------------------------------------------------------

  predicate InCompany(org: Org, b: string, group: string) {
    b in org.branches && b in org.groupOf && org.groupOf[b] == group
  }

  predicate Owns(org: Org, own: seq<string>, group: string) {
    exists b :: b in own && InCompany(org, b, group)
  }

  /** The branches of a company, or the user's own ones among them if there are any and the user
      does not see everything. */
  lemma PermittedIs(org: Org, group: string, everything: bool, own: seq<string>, b: string)
    ensures b in Permitted(org, group, everything, own)
       <==> InCompany(org, b, group) && (everything || !Owns(org, own, group) || b in own)
  {
    var all := GroupBranches(org, group);
    CompanyIs(org, group, b);
    WhereMember(all, x => x in own, b);
    if x :| x in own && InCompany(org, x, group) {
      CompanyIs(org, group, x);
      WhereMember(all, x => x in own, x);
    }
    var mine := Where(all, x => x in own);
    if mine != [] {
      var x := mine[0];
      WhereMember(all, x => x in own, x);
      CompanyIs(org, group, x);
      assert x in own && InCompany(org, x, group);
    }
  }

  lemma CompanyIs(org: Org, group: string, b: string)
    ensures b in GroupBranches(org, group) <==> InCompany(org, b, group)
  {
    WhereMember(org.branches, b => b in org.groupOf && org.groupOf[b] == group, b);
  }

  /** Global users and media buyers of several branches land on none; the others on their primary
      branch if it is a membership, else on the first membership. */
  predicate LandsOn(u: User, global: bool, branch: Option<string>) {
    if global || u.memberships == [] then branch == None
    else if u.profile.role == "MEDIA_BUYER" then
      branch == if |u.memberships| == 1 then Some(u.memberships[0].branchId) else None
    else if exists i :: 0 <= i < |u.memberships| && u.primaryBranchId == Some(u.memberships[i].branchId)
                        && u.memberships[i].branchId != ""
    then branch == u.primaryBranchId
    else branch == Some(u.memberships[0].branchId)
  }

  lemma DefaultLands(u: User, global: bool)
    ensures LandsOn(u, global, DefaultBranch(u, global))
  {
    if u.primaryBranchId.Some? { IdsAre(u.memberships, u.primaryBranchId.value); }
  }

  /** The company of a branch that is in the database. */
  predicate CompanyOf(org: Org, b: string, group: Option<string>) {
    if b in org.branches && b in org.groupOf then group == Some(org.groupOf[b]) else group.None?
  }

  /** The company of the branch; without a branch the first company that has one of the user's. */
  predicate Enters(org: Org, u: User, branch: Option<string>, group: Option<string>) {
    if Truthy(branch) then CompanyOf(org, branch.value, group)
    else if group.None? then forall g :: g in org.groups ==> !Owns(org, Ids(u.memberships), g)
    else
      exists j :: 0 <= j < |org.groups| && group.value == org.groups[j]
                  && Owns(org, Ids(u.memberships), org.groups[j])
                  && forall k :: 0 <= k < j ==> !Owns(org, Ids(u.memberships), org.groups[k])
  }

  lemma {:induction false} FirstOfWhere(s: seq<string>, keep: string -> bool)
    ensures Where(s, keep) == [] <==> forall x :: x in s ==> !keep(x)
    ensures Where(s, keep) != [] ==>
      exists j :: 0 <= j < |s| && s[j] == Where(s, keep)[0] && keep(s[j]) && forall k :: 0 <= k < j ==> !keep(s[k])
  {
    if s != [] {
      FirstOfWhere(s[1..], keep);
      assert s == [s[0]] + s[1..];
      if keep(s[0]) {
        assert Where(s, keep)[0] == s[0];
      } else if Where(s[1..], keep) != [] {
        var j :| 0 <= j < |s[1..]| && s[1..][j] == Where(s[1..], keep)[0] && keep(s[1..][j])
                 && forall k :: 0 <= k < j ==> !keep(s[1..][k]);
        assert s[j + 1] == s[1..][j];
        forall k | 0 <= k < j + 1 ensures !keep(s[k]) { if k > 0 { assert s[k] == s[1..][k - 1]; } }
      }
    }
  }

  lemma OwnsIs(org: Org, own: seq<string>, g: string)
    ensures Owns(org, own, g) <==> exists b :: b in own && GroupOf(org, b) == Some(g)
  {
    if b :| b in own && GroupOf(org, b) == Some(g) { assert InCompany(org, b, g); }
  }

  lemma DefaultEnters(org: Org, u: User, branch: Option<string>)
    ensures Enters(org, u, branch, DefaultGroup(org, u, branch))
  {
    if !Truthy(branch) {
      var own := Ids(u.memberships);
      FirstOfWhere(org.groups, g => exists b :: b in own && GroupOf(org, b) == Some(g));
      forall g ensures Owns(org, own, g) <==> exists b :: b in own && GroupOf(org, b) == Some(g) {
        OwnsIs(org, own, g);
      }
    }
  }

  /** A new session: the user's row and permissions, all of their branches, the branches of the
      company entered that they may view, the codes granted there, no country picked. */
  ghost predicate Fresh(org: Org, u: User, s: Session) {
    && s.profile == u.profile && BranchesOf(s.branchIds, u.memberships) && s.currency.None?
    && CodesGrantedIn(s.currencyCodes, s.group, u.countries)
    && (s.selected.Some? <==> Truthy(s.group))
    && (Truthy(s.group) ==> forall b :: b in s.selected.value <==>
         InCompany(org, b, s.group.value)
         && (SeesEverything(u.profile) || !Owns(org, s.branchIds, s.group.value) || b in s.branchIds))
  }

  lemma LandedIsFresh(org: Org, u: User, branch: Option<string>, group: Option<string>, mirror: Option<MirroredBy>)
    ensures var s := Landed(org, u, branch, group, mirror);
            Fresh(org, u, s) && s.branch == branch && s.group == group && s.mirroredBy == mirror
  {
    CodesAre(u.countries, group);
    IdsAre(u.memberships, "");
    if Truthy(group) {
      forall b ensures b in Permitted(org, group.value, SeesEverything(u.profile), Ids(u.memberships)) <==>
                       InCompany(org, b, group.value)
                       && (SeesEverything(u.profile) || !Owns(org, Ids(u.memberships), group.value)
                           || b in Ids(u.memberships)) {
        PermittedIs(org, group.value, SeesEverything(u.profile), Ids(u.memberships), b);
      }
    }
  }

  /** Login is refused exactly to someone who is not global and has no branch. Otherwise the session
      is a new one on the branch and in the company where the user lands; a global user who lands in
      none enters the first active one. */
  lemma LoginIs(org: Org, u: User)
    ensures LoggedIn(org, u) == Refused(401) <==> !GlobalAtLogin(u.profile) && u.memberships == []
    ensures LoggedIn(org, u).Refused? ==> LoggedIn(org, u) == Refused(401)
    ensures LoggedIn(org, u).Ok? ==>
      var s := LoggedIn(org, u).value;
      && Fresh(org, u, s) && s.mirroredBy.None? && LandsOn(u, GlobalAtLogin(u.profile), s.branch)
      && exists g :: Enters(org, u, s.branch, g)
           && s.group == if !Truthy(g) && GlobalAtLogin(u.profile) && org.firstActive.Some? then org.firstActive else g
  {
    var global := GlobalAtLogin(u.profile);
    var branch := DefaultBranch(u, global);
    var g := DefaultGroup(org, u, branch);
    DefaultLands(u, global);
    DefaultEnters(org, u, branch);
    LandedIsFresh(org, u, branch,
                  if !Truthy(g) && global && org.firstActive.Some? then org.firstActive else g, None);
  }

  /** A mirror start succeeds exactly for someone who is not mirroring yet and may mirror an active
      user who is global or has a branch. The session is a new one of that user, with the actor's
      id, company, branch and selection saved. */
  lemma StartIs(org: Org, actor: Session, target: Option<User>, allowed: bool)
    ensures var r := Mirrored(org, actor, target, allowed);
            && (r.Ok? <==> actor.mirroredBy.None? && allowed && target.Some? && target.value.active
                           && (GlobalAtMirror(target.value.profile) || target.value.memberships != []))
            && (r.Refused? ==>
                  r.status == if actor.mirroredBy.Some? || (target.Some? && target.value.active && !allowed)
                              then 403 else 400)
            && (r.Ok? ==>
                  && Fresh(org, target.value, r.value)
                  && LandsOn(target.value, GlobalAtMirror(target.value.profile), r.value.branch)
                  && Enters(org, target.value, r.value.branch, r.value.group)
                  && r.value.mirroredBy == Some(MirroredBy(actor.profile.id,
                                                           Some(Prior(actor.group, actor.branch, actor.selected)))))
  {
    if Mirrored(org, actor, target, allowed).Ok? {
      var u := target.value;
      var branch := DefaultBranch(u, GlobalAtMirror(u.profile));
      DefaultLands(u, GlobalAtMirror(u.profile));
      DefaultEnters(org, u, branch);
      LandedIsFresh(org, u, branch, DefaultGroup(org, u, branch), Some(SavedBy(actor)));
    }
  }

  /** A stop succeeds exactly while mirroring, for an actor who is still there. The session is the
      actor's, with every granted code; company and selection are those saved, and the branch too
      if the stop lets them stand on it, else the one where they land. Sessions that saved nothing
      get no company. */
  lemma StopIs(s: Session, actor: Option<User>)
    ensures var r := Unmirrored(s, actor);
            && (r.Ok? <==> s.mirroredBy.Some? && actor.Some?) && (r.Refused? ==> r.status == 400)
            && (r.Ok? ==>
                  var u, prior := actor.value, s.mirroredBy.value.prior;
                  && r.value.profile == u.profile && BranchesOf(r.value.branchIds, u.memberships)
                  && CodesGrantedIn(r.value.currencyCodes, None, u.countries)
                  && r.value.currency.None? && r.value.mirroredBy.None?
                  && (prior.Some? ==> r.value.group == prior.value.group && r.value.selected == prior.value.selected)
                  && (prior.None? ==> r.value.group.None? && r.value.selected.None?)
                  && (if prior.Some? && MayReturn(u, prior.value.branch) then r.value.branch == prior.value.branch
                      else LandsOn(u, GlobalAtMirror(u.profile), r.value.branch)))
  {
    if s.mirroredBy.Some? && actor.Some? {
      CodesAre(actor.value.countries, None);
      IdsAre(actor.value.memberships, "");
      DefaultLands(actor.value, GlobalAtMirror(actor.value.profile));
      DefaultIsOwn(actor.value, GlobalAtMirror(actor.value.profile));
    }
  }

  // ---- Switchers --------------------------------------------------------------------------

  predicate OneOf(picked: seq<string>, own: seq<string>) {
    exists b :: b in picked && b in own
  }

  /** A switch is refused exactly to a media buyer for a branch outside their data, and, of those
      who are neither global nor media buyers, for a branch that is not theirs, or, without a
      branch, when none of the pick is. */
  lemma SwitchRefusedIff(org: Org, s: Session, branchId: Option<string>, picked: seq<string>,
                         own: seq<string>, lens: seq<string>, countries: seq<Grant>)
    ensures Switched(org, s, branchId, picked, own, lens, countries).Refused?
       <==> var global, buyer := GlobalAtSwitch(s.profile), s.profile.role == "MEDIA_BUYER";
            || (Truthy(branchId) && buyer && branchId.value !in lens)
            || (Truthy(branchId) && !buyer && !global && branchId.value !in own)
            || (branchId.None? && !buyer && !global && !OneOf(picked, own))
    ensures Switched(org, s, branchId, picked, own, lens, countries).Refused? ==>
      Switched(org, s, branchId, picked, own, lens, countries) == Refused(403)
  {
  }

  /** The company of the branch asked for, else of the first one picked; without either, the only
      company of the user's branches. */
  predicate SwitchesInto(org: Org, s: Session, branchId: Option<string>, picked: seq<string>, group: Option<string>) {
    if Truthy(branchId) then CompanyOf(org, branchId.value, group)
    else if branchId.None? && picked != [] && picked[0] != "" then CompanyOf(org, picked[0], group)
    else
      && (group.Some? ==> group.value in org.groups && Owns(org, s.branchIds, group.value)
                          && forall g :: g in org.groups && Owns(org, s.branchIds, g) ==> g == group.value)
      && (group.None? && NoRepeats(org.groups) ==>
            !exists g :: g in org.groups && Owns(org, s.branchIds, g)
                         && forall h :: h in org.groups && Owns(org, s.branchIds, h) ==> h == g)
  }

  lemma {:induction false} WhereUnique(s: seq<string>, keep: string -> bool)
    requires NoRepeats(s)
    ensures NoRepeats(Where(s, keep))
  {
    if s != [] {
      var rest := s[1..];
      forall i, j | 0 <= i < j < |rest| ensures rest[i] != rest[j] {
        assert rest[i] == s[i + 1] && rest[j] == s[j + 1];
      }
      WhereUnique(rest, keep);
      WhereMember(rest, keep, s[0]);
    }
  }

  lemma OnlyGroup(org: Org, own: seq<string>)
    ensures var groups := GroupsOf(org, own);
            && (|groups| == 1 ==> groups[0] in org.groups && Owns(org, own, groups[0])
                                  && forall g :: g in org.groups && Owns(org, own, g) ==> g == groups[0])
            && (NoRepeats(org.groups) && |groups| != 1 ==>
                  !exists g :: g in org.groups && Owns(org, own, g)
                               && forall h :: h in org.groups && Owns(org, own, h) ==> h == g)
  {
    var keep := g => exists b :: b in own && GroupOf(org, b) == Some(g);
    var groups := GroupsOf(org, own);
    forall g ensures g in groups <==> g in org.groups && Owns(org, own, g) {
      WhereMember(org.groups, keep, g);
      OwnsIs(org, own, g);
    }
    if |groups| == 1 { assert groups[0] in groups; }
    if NoRepeats(org.groups) && |groups| > 1 {
      WhereUnique(org.groups, keep);
      assert groups[0] in groups && groups[1] in groups;
    }
  }

  lemma SwitchesIntoIs(org: Org, s: Session, branchId: Option<string>, picked: seq<string>)
    ensures SwitchesInto(org, s, branchId, picked, SwitchedGroup(org, s, branchId, picked))
  {
    OnlyGroup(org, s.branchIds);
  }

  /** What the switch leaves to be viewed: the pick, without what the user may not view in the
      company, or, in no company, without what is not theirs; with nothing picked, all that may be
      viewed in the company. Nothing left is no selection. */
  ghost predicate Selects(org: Org, s: Session, group: Option<string>, picked: seq<string>,
                          selected: Option<seq<string>>) {
    var everything := SeesEverything(s.profile);
    && (selected.Some? && (picked != [] || !Truthy(group)) ==> picked != [] && selected.value != [])
    && (Truthy(group) && picked == [] ==> selected.Some?)
    && (selected.Some? ==> forall b :: b in selected.value <==>
          && (picked == [] || b in picked)
          && (if Truthy(group)
              then InCompany(org, b, group.value)
                   && (everything || !Owns(org, s.branchIds, group.value) || b in s.branchIds)
              else everything || b in s.branchIds))
    && (selected.None? ==> forall b :: b in picked ==>
          if Truthy(group)
          then !(InCompany(org, b, group.value)
                 && (everything || !Owns(org, s.branchIds, group.value) || b in s.branchIds))
          else !everything && b !in s.branchIds)
  }

  lemma SelectsIs(org: Org, s: Session, group: Option<string>, picked: seq<string>)
    ensures Selects(org, s, group, picked, SwitchedSelection(org, s, group, picked))
  {
    var everything := SeesEverything(s.profile);
    if Truthy(group) {
      var permitted := Permitted(org, group.value, everything, s.branchIds);
      forall b ensures b in permitted <==>
                 InCompany(org, b, group.value)
                 && (everything || !Owns(org, s.branchIds, group.value) || b in s.branchIds) {
        PermittedIs(org, group.value, everything, s.branchIds, b);
      }
      forall b ensures b in Where(picked, b => b in permitted) <==> b in picked && b in permitted {
        WhereMember(picked, b => b in permitted, b);
      }
    } else {
      forall b ensures b in Where(picked, b => b in s.branchIds) <==> b in picked && b in s.branchIds {
        WhereMember(picked, b => b in s.branchIds, b);
      }
    }
  }

  function Capital(c: char): char {
    if 'a' <= c <= 'z' then c - 'a' + 'A' else c
  }

  predicate SameCode(a: string, b: string) {
    |a| == |b| && forall i :: 0 <= i < |a| ==> Capital(a[i]) == Capital(b[i])
  }

  lemma UpperAt(a: string)
    ensures |Upper(a)| == |a| && forall i :: 0 <= i < |a| ==> Upper(a)[i] == Capital(a[i])
  {
  }

  lemma UpperIs(a: string, b: string)
    ensures Upper(a) == Upper(b) <==> SameCode(a, b)
  {
    UpperAt(a);
    UpperAt(b);
    if Upper(a) == Upper(b) {
      forall i | 0 <= i < |a| ensures Capital(a[i]) == Capital(b[i]) { assert Upper(a)[i] == Upper(b)[i]; }
    }
  }

  /** After a switch that is not refused the session stands on the branch asked for, in the company
      switched into, with that selection and the codes granted there; the country viewed is kept if
      it is granted there, else none is. Everything else is as it was. */
  lemma SwitchedIs(org: Org, s: Session, branchId: Option<string>, picked: seq<string>,
                   own: seq<string>, lens: seq<string>, countries: seq<Grant>)
    requires Switched(org, s, branchId, picked, own, lens, countries).Ok?
    ensures var r := Switched(org, s, branchId, picked, own, lens, countries).value;
            && r.branch == branchId
            && r.profile == s.profile && r.branchIds == s.branchIds && r.mirroredBy == s.mirroredBy
            && SwitchesInto(org, s, branchId, picked, r.group)
            && Selects(org, s, r.group, picked, r.selected)
            && CodesGrantedIn(r.currencyCodes, r.group, countries)
            && (if Truthy(s.currency) && exists c :: c in r.currencyCodes && SameCode(c, s.currency.value)
                then r.currency == s.currency else r.currency.None?)
  {
    var group := SwitchedGroup(org, s, branchId, picked);
    SwitchesIntoIs(org, s, branchId, picked);
    SelectsIs(org, s, group, picked);
    CodesAre(countries, group);
    if Truthy(s.currency) {
      forall c ensures Upper(c) == Upper(s.currency.value) <==> SameCode(c, s.currency.value) {
        UpperIs(c, s.currency.value);
      }
    }
  }

  /** A country can be viewed exactly if its currency is active in the session's company (without a
      company: in none) and is granted, or the user is a media buyer, admin-level or sees all
      countries. The code is stored in capitals, and nothing else changes. */
  lemma CurrencyIs(s: Session, code: Option<string>, table: seq<Currency>)
    ensures var r := SwitchedCurrency(s, code, table);
            && (r.Ok? <==> (Truthy(code) ==>
                 && (exists c :: c in table && c.active && SameCode(c.code, code.value)
                                 && (if Truthy(s.group) then c.groupId == s.group else c.groupId.None?))
                 && (s.profile.role in {"MEDIA_BUYER", "SUPER_ADMIN", "ADMIN", "SUPPORT"}
                     || "countries.view_all" in s.profile.permissions
                     || exists c :: c in s.currencyCodes && SameCode(c, code.value))))
            && (r.Refused? ==> r.status == 403)
            && (r.Ok? ==> r.value == s.(currency := r.value.currency)
                          && (r.value.currency.Some? <==> Truthy(code))
                          && (Truthy(code) ==>
                                && SameCode(r.value.currency.value, code.value)
                                && forall i :: 0 <= i < |r.value.currency.value| ==>
                                     !('a' <= r.value.currency.value[i] <= 'z')))
  {
    if Truthy(code) {
      forall c ensures Upper(c) == Upper(code.value) <==> SameCode(c, code.value) { UpperIs(c, code.value); }
      CapitalsStay(code.value);
    }
  }

  lemma CapitalsStay(a: string)
    ensures SameCode(Upper(a), a) && forall i :: 0 <= i < |Upper(a)| ==> !('a' <= Upper(a)[i] <= 'z')
  {
    UpperAt(a);
  }

  // ---- The backfill -----------------------------------------------------------------------

  /** Without a company the session is given the only company of its branches, or, for someone who
      sees everything, the first active one; with a company and neither branch nor selection it is
      given a selection. Otherwise there is nothing to do. A session on a branch keeps its
      selection, and one without gets all that may be viewed in the company. */
  lemma BackfillIs(org: Org, s: Session, p: Profile)
    ensures var patch, everything, only := Backfill(org, s, p), SeesEverything(p), GroupsOf(org, s.branchIds);
            var empty := s.selected.None? || s.selected.value == [];
            var group := if Truthy(s.group) then s.group
                         else if |only| == 1 && only[0] != "" then Some(only[0])
                         else if everything then org.firstActive else None;
            var stocked := Truthy(group) && exists b :: InCompany(org, b, group.value);
            && (patch.Some? <==> Truthy(group) && (!Truthy(s.group) || (!Truthy(s.branch) && empty && stocked)))
            && (patch.Some? ==>
                  && Some(patch.value.group) == group
                  && (Truthy(s.branch) || !stocked ==> patch.value.selected == s.selected)
                  && (!Truthy(s.branch) && stocked ==>
                        patch.value.selected.Some? && forall b :: b in patch.value.selected.value <==>
                          InCompany(org, b, group.value)
                          && (everything || !Owns(org, s.branchIds, group.value) || b in s.branchIds)))
  {
    var only, everything := GroupsOf(org, s.branchIds), SeesEverything(p);
    var group := if Truthy(s.group) then s.group
                 else if |only| == 1 && only[0] != "" then Some(only[0])
                 else if everything then org.firstActive else None;
    if Truthy(group) {
      StockedIs(org, group.value);
      forall b ensures b in Permitted(org, group.value, everything, s.branchIds) <==>
                 InCompany(org, b, group.value)
                 && (everything || !Owns(org, s.branchIds, group.value) || b in s.branchIds) {
        PermittedIs(org, group.value, everything, s.branchIds, b);
      }
    }
  }

  lemma StockedIs(org: Org, group: string)
    ensures GroupBranches(org, group) != [] <==> exists b :: InCompany(org, b, group)
  {
    var all := GroupBranches(org, group);
    if all != [] { CompanyIs(org, group, all[0]); }
    if b :| InCompany(org, b, group) { CompanyIs(org, group, b); }
  }

  /** A backfill changes company and selection only, and leaves nothing for the next one. */
  lemma BackfillSettles(org: Org, s: Session, p: Profile)
    requires Backfill(org, s, p).Some?
    ensures var s' := Patched(s, Backfill(org, s, p).value);
            s' == s.(group := s'.group, selected := s'.selected) && Backfill(org, s', p).None?
  {
    var patch := Backfill(org, s, p).value;
    var s' := Patched(s, patch);
    BackfillIs(org, s, p);
    BackfillIs(org, s', p);
    if !Truthy(s.branch) {
      if b :| InCompany(org, b, patch.group) {
        PermittedSome(org, patch.group, SeesEverything(p), s.branchIds, b);
      }
    }
  }

  lemma PermittedSome(org: Org, group: string, everything: bool, own: seq<string>, b: string)
    requires InCompany(org, b, group)
    ensures Permitted(org, group, everything, own) != []
  {
    CompanyIs(org, group, b);
  }

  // ---- Along a session's history ----------------------------------------------------------

  /** A refresh writes the session it read, with the memberships or codes of now. */
  lemma RefreshWrites(org: Org, history: seq<Session>, op: Op)
    requires Possible(history, op) && (op.RefreshesBranches? || op.RefreshesCountries?)
    ensures var s, s' := history[op.at], Next(org, history, op);
            && (op.RefreshesBranches? ==>
                  && s' == s.(branchIds := s'.branchIds, branch := s'.branch)
                  && BranchesOf(s'.branchIds, op.ms) && BranchKept(s.branch, s'.branch, op.ms))
            && (op.RefreshesCountries? ==>
                  s' == s.(currencyCodes := s'.currencyCodes) && GrantsKept(s'.currencyCodes, s.group, op.gs))
  {
    if op.RefreshesBranches? { ReconciledIs(history[op.at].branch, op.ms); }
    else { RefreshedCodesAre(op.gs, history[op.at].group); }
  }

  /** What a request leaves in the session's history. An accepted one writes what follows from the
      state it read, whatever the session has become: a mirror start the target, with the actor of
      that state saved; a stop the actor; a switch the branch asked for. A refused one leaves the
      session as it is now. */
  lemma RequestOutcome(org: Org, history: seq<Session>, op: Op)
    requires Possible(history, op)
    ensures var s, now, s' := history[op.at], history[|history| - 1], Next(org, history, op);
            match op
            case StartsMirror(_, target, allowed) =>
              if s.mirroredBy.None? && allowed && target.Some? && target.value.active
                 && (GlobalAtMirror(target.value.profile) || target.value.memberships != [])
              then s'.profile == target.value.profile
                   && s'.mirroredBy == Some(MirroredBy(s.profile.id, Some(Prior(s.group, s.branch, s.selected))))
              else s' == now
            case StopsMirror(_, actor) =>
              if s.mirroredBy.Some? && actor.Some?
              then s'.profile == actor.value.profile && s'.mirroredBy.None?
                   && (s.mirroredBy.value.prior.Some? ==> s'.group == s.mirroredBy.value.prior.value.group)
              else s' == now
            case SwitchesBranch(_, branchId, picked, own, lens, countries) =>
              if MaySwitch(s, branchId, picked, own, lens)
              then s'.branch == branchId && s'.profile == s.profile && s'.mirroredBy == s.mirroredBy
              else s' == now
            case SwitchesCurrency(_, code, table) =>
              if MayView(s, code, table)
              then s' == s.(currency := s'.currency) && (s'.currency.Some? <==> Truthy(code))
              else s' == now
            case Backfills(_, seen, profile) =>
              var patch := Backfill(org, history[seen], profile);
              if patch.Some? then s' == s.(group := Some(patch.value.group), selected := patch.value.selected)
              else s' == now
            case _ => s'.mirroredBy == s.mirroredBy && s'.group == s.group && s'.selected == s.selected
  {
  }

  /** The request writes nothing, or keeps the branch it read, which it read since `base`. */
  predicate KeepsBranch(org: Org, history: seq<Session>, op: Op, base: nat)
    requires Possible(history, op)
  {
    || Written(org, history, op).None?
    || (op.at >= base
        && match op
           case SwitchesCurrency(_, _, _) => true
           case RefreshesCountries(_, _) => true
           case Backfills(_, _, _) => true
           case RefreshesBranches(at, ms) => history[at].branch.None? || history[at].branch.value in Ids(ms)
           case _ => false)
  }

  ghost predicate AllKeepBranch(org: Org, history: seq<Session>, ops: seq<Op>, base: nat)
    requires Legal(org, history, ops)
    decreases |ops|
  {
    ops != [] ==>
      KeepsBranch(org, history, ops[0], base)
      && AllKeepBranch(org, history + [Next(org, history, ops[0])], ops[1..], base)
  }

  lemma {:induction false} BranchLasts(org: Org, history: seq<Session>, ops: seq<Op>, base: nat, b: Option<string>)
    requires Legal(org, history, ops) && AllKeepBranch(org, history, ops, base) && base < |history|
    requires forall i :: base <= i < |history| ==> history[i].branch == b
    ensures var h := Run(org, history, ops); |h| >= |history| && forall i :: base <= i < |h| ==> h[i].branch == b
    decreases |ops|
  {
    if ops != [] { BranchLasts(org, history + [Next(org, history, ops[0])], ops[1..], base, b); }
  }

  /** From a switch on, the session stands on the branch asked for in every later state, until a
      request writes another branch or one that it read before the switch. */
  lemma SwitchLasts(org: Org, history: seq<Session>, op: Op, ops: seq<Op>)
    requires Possible(history, op) && op.SwitchesBranch? && Written(org, history, op).Some?
    requires var h := history + [Next(org, history, op)]; Legal(org, h, ops) && AllKeepBranch(org, h, ops, |history|)
    ensures var h := Run(org, history + [Next(org, history, op)], ops);
            |h| > |history| && forall i :: |history| <= i < |h| ==> h[i].branch == op.branchId
  {
    BranchLasts(org, history + [Next(org, history, op)], ops, |history|, op.branchId);
  }
}
