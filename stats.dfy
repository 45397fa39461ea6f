/**
 * The three reporting queries of routers/stats_routers.py, as functions from
 * a snapshot of the tables to counts. Each is an inner join of `member` with
 * `role` and/or `organization`, grouped by the human-readable name(s) and
 * counting `member.user_id`, which is never null: so each count is a number
 * of member rows. The result is unordered (no ORDER BY): a map.
 */
module Stats {
  import opened Wrappers
  import opened Schema

  /** Some element of a non-empty set. */
  ghost function Pick<K>(ks: set<K>): K
    requires ks != {}
  {
    var k :| k in ks; k
  }

  /** The sum of the counts of `m` at the keys `ks`. */
  ghost function SumOver<K>(m: map<K, nat>, ks: set<K>): nat
    requires ks <= m.Keys
    decreases ks
  {
    if ks == {} then 0 else var k := Pick(ks); m[k] + SumOver(m, ks - {k})
  }

  /** The sum of all the counts of `m`. */
  ghost function Total<K>(m: map<K, nat>): nat {
    SumOver(m, m.Keys)
  }

  /** A sum over a set does not depend on which element is taken first. */
  lemma {:induction false} SumOverRemove<K>(m: map<K, nat>, ks: set<K>, k: K)
    requires ks <= m.Keys && k in ks
    ensures SumOver(m, ks) == m[k] + SumOver(m, ks - {k})
    decreases ks
  {
    var j := Pick(ks);
    if j != k {
      SumOverRemove(m, ks - {j}, k);
      SumOverRemove(m, ks - {k}, j);
      assert ks - {j} - {k} == ks - {k} - {j};
    }
  }

  /**
   * GROUP BY `key` with COUNT: one entry per key some id has, holding how
   * many ids have it.
   */
  function GroupCount<K(==,!new)>(ids: set<int>, key: int -> K): (r: map<K, nat>)
    ensures forall k :: k in r <==> Class(ids, key, k) != {}
    ensures forall k :: k in r ==> r[k] == |Class(ids, key, k)|
  {
    ImageIsNonEmptyClasses(ids, key);
    map k | k in (set id | id in ids :: key(id)) :: |Class(ids, key, k)|
  }

  lemma ImageIsNonEmptyClasses<K(!new)>(ids: set<int>, key: int -> K)
    ensures forall k :: k in (set id | id in ids :: key(id)) <==> Class(ids, key, k) != {}
  {
    forall k ensures k in (set id | id in ids :: key(id)) <==> Class(ids, key, k) != {} {
      var c := Class(ids, key, k);
      if k in (set id | id in ids :: key(id)) {
        var id :| id in ids && key(id) == k;
        assert id in c;
      }
      if c != {} {
        var id := Pick(c);
        assert id in ids && key(id) == k;
      }
    }
  }

  /** The ids whose key is `k`. */
  function Class<K(==)>(ids: set<int>, key: int -> K, k: K): set<int> {
    set id | id in ids && key(id) == k
  }

  /** Summing the groups at some keys counts the ids whose key is one of them. */
  lemma {:induction false} GroupCountSumOver<K(!new)>(ids: set<int>, key: int -> K, ks: set<K>)
    requires ks <= GroupCount(ids, key).Keys
    ensures SumOver(GroupCount(ids, key), ks) == |set id | id in ids && key(id) in ks|
    decreases ks
  {
    if ks == {} {
      assert (set id | id in ids && key(id) in ks) == {};
    } else {
      var k := Pick(ks);
      GroupCountSumOver(ids, key, ks - {k});
      var all := set id | id in ids && key(id) in ks;
      var rest := set id | id in ids && key(id) in ks - {k};
      var cls := Class(ids, key, k);
      assert all == rest + cls;
      assert rest !! cls;
    }
  }

  /** The groups partition the ids: their counts add up to the number of ids. */
  lemma GroupCountTotal<K(!new)>(ids: set<int>, key: int -> K)
    ensures Total(GroupCount(ids, key)) == |ids|
  {
    var g := GroupCount(ids, key);
    GroupCountSumOver(ids, key, g.Keys);
    forall id | id in ids ensures key(id) in g {
      assert id in Class(ids, key, key(id));
    }
    assert (set id | id in ids && key(id) in g.Keys) == ids;
  }

  /**
   * Grouping by a finer key and then summing the groups that project to
   * `l` counts the ids whose key projects to `l`.
   */
  lemma GroupCountProject<K(!new), L>(ids: set<int>, key: int -> K, proj: K -> L, l: L)
    ensures var g := GroupCount(ids, key);
      SumOver(g, set k | k in g && proj(k) == l) == |set id | id in ids && proj(key(id)) == l|
  {
    var g := GroupCount(ids, key);
    var ks := set k | k in g && proj(k) == l;
    GroupCountSumOver(ids, key, ks);
    forall id | id in ids ensures key(id) in g {
      assert id in Class(ids, key, key(id));
    }
    assert (set id | id in ids && key(id) in ks) == (set id | id in ids && proj(key(id)) == l);
  }

  // The joins. A member row takes part when the rows it points at exist.

  /** Member `id` joins a role named `n` (member.role_id = role.id). */
  predicate HasRoleNamed(db: Db, id: int, n: string) {
    id in db.members && db.members[id].roleId in db.roles && db.roles[db.members[id].roleId].name == n
  }

  /** Member `id` joins an organization named `n` (member.org_id = organization.id). */
  predicate HasOrgNamed(db: Db, id: int, n: string) {
    id in db.members && db.members[id].orgId in db.orgs && db.orgs[db.members[id].orgId].name == n
  }

  function RoleJoin(db: Db): set<int> {
    set id | id in db.members && db.members[id].roleId in db.roles
  }

  function OrgJoin(db: Db): set<int> {
    set id | id in db.members && db.members[id].orgId in db.orgs
  }

  function OrgRoleJoin(db: Db): set<int> {
    set id | id in db.members && db.members[id].orgId in db.orgs && db.members[id].roleId in db.roles
  }

  /** The three-way join keeps exactly the rows both two-way joins keep. */
  lemma OrgRoleJoinIsBoth(db: Db)
    ensures OrgRoleJoin(db) == OrgJoin(db) * RoleJoin(db)
  {
  }

  function RoleNameOf(db: Db, id: int): string {
    if id in db.members && db.members[id].roleId in db.roles then db.roles[db.members[id].roleId].name else ""
  }

  function OrgNameOf(db: Db, id: int): string {
    if id in db.members && db.members[id].orgId in db.orgs then db.orgs[db.members[id].orgId].name else ""
  }

  function RoleKey(db: Db): int -> string {
    id => RoleNameOf(db, id)
  }

  function OrgKey(db: Db): int -> string {
    id => OrgNameOf(db, id)
  }

  function OrgRoleKey(db: Db): int -> (string, string) {
    id => (OrgNameOf(db, id), RoleNameOf(db, id))
  }

  /**
   * role_wise_users: per role name that some member row joins, the number
   * of member rows whose role has that name, across all organizations.
   */
  function RoleWise(db: Db): (r: map<string, nat>)
    ensures forall n :: n in r <==> exists id :: HasRoleNamed(db, id, n)
    ensures forall n :: n in r ==> r[n] == |set id | id in db.members && HasRoleNamed(db, id, n)|
  {
    RoleClasses(db);
    GroupCount(RoleJoin(db), RoleKey(db))
  }

  lemma RoleClasses(db: Db)
    ensures forall n :: Class(RoleJoin(db), RoleKey(db), n) == set id | id in db.members && HasRoleNamed(db, id, n)
    ensures forall n :: Class(RoleJoin(db), RoleKey(db), n) != {} <==> exists id :: HasRoleNamed(db, id, n)
  {
    forall n: string
      ensures Class(RoleJoin(db), RoleKey(db), n) == set id | id in db.members && HasRoleNamed(db, id, n)
      ensures Class(RoleJoin(db), RoleKey(db), n) != {} <==> exists id :: HasRoleNamed(db, id, n)
    {
      if exists id :: HasRoleNamed(db, id, n) {
        var id :| HasRoleNamed(db, id, n);
        assert id in Class(RoleJoin(db), RoleKey(db), n);
      }
    }
  }

  /**
   * org_wise_members: per organization name that some member row joins,
   * the number of member rows whose organization has that name; two
   * organizations with the same name share one entry.
   */
  function OrgWise(db: Db): (r: map<string, nat>)
    ensures forall n :: n in r <==> exists id :: HasOrgNamed(db, id, n)
    ensures forall n :: n in r ==> r[n] == |set id | id in db.members && HasOrgNamed(db, id, n)|
  {
    OrgClasses(db);
    GroupCount(OrgJoin(db), OrgKey(db))
  }

  lemma OrgClasses(db: Db)
    ensures forall n :: Class(OrgJoin(db), OrgKey(db), n) == set id | id in db.members && HasOrgNamed(db, id, n)
    ensures forall n :: Class(OrgJoin(db), OrgKey(db), n) != {} <==> exists id :: HasOrgNamed(db, id, n)
  {
    forall n: string
      ensures Class(OrgJoin(db), OrgKey(db), n) == set id | id in db.members && HasOrgNamed(db, id, n)
      ensures Class(OrgJoin(db), OrgKey(db), n) != {} <==> exists id :: HasOrgNamed(db, id, n)
    {
      if exists id :: HasOrgNamed(db, id, n) {
        var id :| HasOrgNamed(db, id, n);
        assert id in Class(OrgJoin(db), OrgKey(db), n);
      }
    }
  }

  /** Member `id` joins an organization named `p.0` and a role named `p.1`. */
  predicate HasOrgRoleNamed(db: Db, id: int, p: (string, string)) {
    HasOrgNamed(db, id, p.0) && HasRoleNamed(db, id, p.1)
  }

  /**
   * org_role_wise_users: per (organization name, role name), keyed by the
   * member's own org_id and role_id; the role's org_id is not consulted.
   */
  function OrgRoleWise(db: Db): (r: map<(string, string), nat>)
    ensures forall p :: p in r <==> exists id :: HasOrgRoleNamed(db, id, p)
    ensures forall p :: p in r ==> r[p] == |set id | id in db.members && HasOrgRoleNamed(db, id, p)|
  {
    OrgRoleClasses(db);
    GroupCount(OrgRoleJoin(db), OrgRoleKey(db))
  }

  lemma OrgRoleClasses(db: Db)
    ensures forall p :: Class(OrgRoleJoin(db), OrgRoleKey(db), p) == set id | id in db.members && HasOrgRoleNamed(db, id, p)
    ensures forall p :: Class(OrgRoleJoin(db), OrgRoleKey(db), p) != {} <==> exists id :: HasOrgRoleNamed(db, id, p)
  {
    forall p: (string, string)
      ensures Class(OrgRoleJoin(db), OrgRoleKey(db), p) == set id | id in db.members && HasOrgRoleNamed(db, id, p)
      ensures Class(OrgRoleJoin(db), OrgRoleKey(db), p) != {} <==> exists id :: HasOrgRoleNamed(db, id, p)
    {
      if exists id :: HasOrgRoleNamed(db, id, p) {
        var id :| HasOrgRoleNamed(db, id, p);
        assert id in Class(OrgRoleJoin(db), OrgRoleKey(db), p);
      }
    }
  }

  // Summation laws.

  /** The role-wise counts add up to the member rows whose role exists. */
  lemma RoleWiseTotal(db: Db)
    ensures Total(RoleWise(db)) == |RoleJoin(db)|
  {
    GroupCountTotal(RoleJoin(db), id => RoleNameOf(db, id));
  }

  /** The org-wise counts add up to the member rows whose organization exists. */
  lemma OrgWiseTotal(db: Db)
    ensures Total(OrgWise(db)) == |OrgJoin(db)|
  {
    GroupCountTotal(OrgJoin(db), id => OrgNameOf(db, id));
  }

  /**
   * With every foreign key in place, the role-wise and org-wise counts
   * both add up to the number of member rows.
   */
  lemma TotalsAgree(db: Db)
    requires ReferencesValid(db)
    ensures Total(RoleWise(db)) == |db.members|
    ensures Total(OrgWise(db)) == |db.members|
  {
    RoleWiseTotal(db);
    OrgWiseTotal(db);
    JoinsKeepEveryMember(db);
  }

  /** With every foreign key in place, no inner join drops a member row. */
  lemma JoinsKeepEveryMember(db: Db)
    requires ReferencesValid(db)
    ensures RoleJoin(db) == db.members.Keys
    ensures OrgJoin(db) == db.members.Keys
    ensures OrgRoleJoin(db) == db.members.Keys
  {
    forall id | id in db.members ensures id in OrgRoleJoin(db) {
      assert MemberRefsValid(db, db.members[id]);
    }
  }

  /**
   * Grouping by a finer key and summing the groups that project to `l`
   * gives the count of `l` when grouping by the coarser key.
   */
  lemma GroupCountRefines<K(!new), L(!new)>(ids: set<int>, fine: int -> K, coarse: int -> L, proj: K -> L, l: L)
    requires forall id :: id in ids ==> proj(fine(id)) == coarse(id)
    ensures var g := GroupCount(ids, fine);
      SumOver(g, KeysProjectingTo(g, proj, l))
      == if l in GroupCount(ids, coarse) then GroupCount(ids, coarse)[l] else 0
  {
    GroupCountProject(ids, fine, proj, l);
    var c := Class(ids, coarse, l);
    forall id ensures id in (set id | id in ids && proj(fine(id)) == l) <==> id in c {
    }
    assert (set id | id in ids && proj(fine(id)) == l) == c;
  }

  /** The keys of `g` whose projection is `l`. */
  function KeysProjectingTo<K, L(==)>(g: map<K, nat>, proj: K -> L, l: L): (ks: set<K>)
    ensures ks <= g.Keys
  {
    set k | k in g && proj(k) == l
  }

  /** The organization-name part of an org-role key. */
  function OrgPart(p: (string, string)): string {
    p.0
  }

  /**
   * With every foreign key in place, the org-role counts of one
   * organization name add up to that name's org-wise count.
   */
  lemma OrgRoleRefinesOrgWise(db: Db, o: string)
    requires ReferencesValid(db)
    ensures var g := OrgRoleWise(db);
      SumOver(g, KeysProjectingTo(g, OrgPart, o)) == if o in OrgWise(db) then OrgWise(db)[o] else 0
  {
    JoinsKeepEveryMember(db);
    var ids := db.members.Keys;
    assert OrgRoleWise(db) == GroupCount(ids, OrgRoleKey(db));
    assert OrgWise(db) == GroupCount(ids, OrgKey(db));
    GroupCountRefines(ids, OrgRoleKey(db), OrgKey(db), OrgPart, o);
  }

  /**
   * One user owning two organizations that are both named "Acme", each
   * with its own "Owner" role.
   */
  function TwoAcmes(u: User, settings: Option<JsonObject>): (db: Db)
    ensures db.members.Keys == {1, 2}
    ensures ReferencesValid(db)
  {
    Db(map[1 := u],
       map[1 := Organization("Acme", 0, Some(false), settings, None, None),
           2 := Organization("Acme", 0, Some(false), settings, None, None)],
       map[1 := Role("Owner", None, 1), 2 := Role("Owner", None, 2)],
       map[1 := Member(1, 1, 1, 0, settings, None, None), 2 := Member(2, 1, 2, 0, settings, None, None)])
  }

  /** The two organizations merge into one org-wise entry. */
  lemma SameOrgNamesMerge(u: User, settings: Option<JsonObject>)
    ensures OrgWise(TwoAcmes(u, settings)) == map["Acme" := 2]
  {
    TwoAcmesOrgNames(u, settings);
    TwoAcmesOrgCount(u, settings);
  }

  lemma TwoAcmesOrgNames(u: User, settings: Option<JsonObject>)
    ensures OrgWise(TwoAcmes(u, settings)).Keys == {"Acme"}
  {
    var db := TwoAcmes(u, settings);
    var key := OrgKey(db);
    assert OrgJoin(db) == {1, 2};
    ImageIsNonEmptyClasses({1, 2}, key);
    assert key(1) == "Acme" && key(2) == "Acme";
    assert (set id | id in {1, 2} :: key(id)) == {"Acme"};
    var g := GroupCount({1, 2}, key);
    assert OrgWise(db) == g;
    assert g.Keys == {"Acme"};
  }

  lemma TwoAcmesOrgCount(u: User, settings: Option<JsonObject>)
    ensures "Acme" in OrgWise(TwoAcmes(u, settings)) && OrgWise(TwoAcmes(u, settings))["Acme"] == 2
  {
    var db := TwoAcmes(u, settings);
    assert HasOrgNamed(db, 1, "Acme");
    assert (set id | id in db.members && HasOrgNamed(db, id, "Acme")) == {1, 2};
  }

  /** The one user is counted once per member row: twice. */
  lemma RowsNotUsersAreCounted(u: User, settings: Option<JsonObject>)
    ensures RoleWise(TwoAcmes(u, settings)) == map["Owner" := 2]
  {
    TwoAcmesRoleNames(u, settings);
    TwoAcmesRoleCount(u, settings);
  }

  lemma TwoAcmesRoleNames(u: User, settings: Option<JsonObject>)
    ensures RoleWise(TwoAcmes(u, settings)).Keys == {"Owner"}
  {
    var db := TwoAcmes(u, settings);
    var key := RoleKey(db);
    assert RoleJoin(db) == {1, 2};
    ImageIsNonEmptyClasses({1, 2}, key);
    assert key(1) == "Owner" && key(2) == "Owner";
    assert (set id | id in {1, 2} :: key(id)) == {"Owner"};
    var g := GroupCount({1, 2}, key);
    assert RoleWise(db) == g;
    assert g.Keys == {"Owner"};
  }

  lemma TwoAcmesRoleCount(u: User, settings: Option<JsonObject>)
    ensures "Owner" in RoleWise(TwoAcmes(u, settings)) && RoleWise(TwoAcmes(u, settings))["Owner"] == 2
  {
    var db := TwoAcmes(u, settings);
    assert HasRoleNamed(db, 1, "Owner");
    assert (set id | id in db.members && HasRoleNamed(db, id, "Owner")) == {1, 2};
  }

  /** Both rows fall under one (organization name, role name) pair. */
  lemma SameOrgRoleNamesMerge(u: User, settings: Option<JsonObject>)
    ensures OrgRoleWise(TwoAcmes(u, settings)) == map[("Acme", "Owner") := 2]
  {
    TwoAcmesOrgRoleNames(u, settings);
    TwoAcmesOrgRoleCount(u, settings);
  }

  lemma TwoAcmesOrgRoleNames(u: User, settings: Option<JsonObject>)
    ensures OrgRoleWise(TwoAcmes(u, settings)).Keys == {("Acme", "Owner")}
  {
    var db := TwoAcmes(u, settings);
    var key := OrgRoleKey(db);
    assert OrgRoleJoin(db) == {1, 2};
    ImageIsNonEmptyClasses({1, 2}, key);
    assert key(1) == ("Acme", "Owner") && key(2) == ("Acme", "Owner");
    assert (set id | id in {1, 2} :: key(id)) == {("Acme", "Owner")};
    var g := GroupCount({1, 2}, key);
    assert OrgRoleWise(db) == g;
    assert g.Keys == {("Acme", "Owner")};
  }

  lemma TwoAcmesOrgRoleCount(u: User, settings: Option<JsonObject>)
    ensures var r := OrgRoleWise(TwoAcmes(u, settings));
      ("Acme", "Owner") in r && r[("Acme", "Owner")] == 2
  {
    var db := TwoAcmes(u, settings);
    assert HasOrgRoleNamed(db, 1, ("Acme", "Owner"));
    assert (set id | id in db.members && HasOrgRoleNamed(db, id, ("Acme", "Owner"))) == {1, 2};
  }
}
