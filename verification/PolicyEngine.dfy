/**
 Policy resolution. Rows come from queries in no particular order; ids are UUIDs, of which only
 the total order matters here.
 */
module PolicyEngine {
  import opened Common

  datatype ScopeKind = BlobScope | TagScope | WalletScope | ProjectScope | OrganizationScope | NoScope

  /** A rule of the policy's JSON: `value` is present when it is an array. */
  datatype Rule = Rule(field: string, value: Option<seq<string>>)

  datatype Policy = Policy(id: int, org: string, scope: ScopeKind, target: Option<string>, active: bool, createdAt: int, rules: seq<Rule>)

  datatype Blob = Blob(id: string, org: string, project: string, wallet: Option<string>, tags: seq<string>)

  datatype Assignment = Assignment(policyId: int, blobId: string)

  datatype Db = Db(blobs: map<string, Blob>, policies: seq<Policy>, assignments: seq<Assignment>)

  datatype Resolved = SystemDefault | Chosen(policy: Policy, path: seq<string>)

  datatype ResolveError = BlobNotFound

  ghost predicate UniqueIds(ps: seq<Policy>) {
    forall i, j :: 0 <= i < j < |ps| ==> ps[i].id != ps[j].id
  }

  // ---------- Tags ----------

  /** `extractPolicyTags`: the first tag rule that has an array. */
  function TagsOf(rules: seq<Rule>): seq<string> {
    if rules == [] then []
    else if rules[0].field == "tag" && rules[0].value.Some? then rules[0].value.value
    else TagsOf(rules[1..])
  }

  /** Length of the policy's tags filtered by membership in `tags`: a repeated tag counts each time. */
  function MatchCount(policyTags: seq<string>, tags: seq<string>): nat {
    if policyTags == [] then 0
    else (if policyTags[0] in tags then 1 else 0) + MatchCount(policyTags[1..], tags)
  }

  function TagMatches(p: Policy, tags: seq<string>): nat { MatchCount(TagsOf(p.rules), tags) }

  // ---------- Queries ----------

  datatype Query = Explicit(assignments: seq<Assignment>, blobId: string) | AtScope(org: string, scope: ScopeKind, target: string) | TagRows(org: string)

  predicate Hits(q: Query, p: Policy) {
    p.active &&
    match q
    case Explicit(assignments, blobId) => Assignment(p.id, blobId) in assignments
    case AtScope(org, scope, target) => p.org == org && p.scope == scope && p.target == Some(target)
    case TagRows(org) => p.org == org && p.scope == TagScope
  }

  function Select(ps: seq<Policy>, q: Query): (rows: seq<Policy>)
    ensures forall p :: p in rows <==> p in ps && Hits(q, p)
  {
    if ps == [] then []
    else (if Hits(q, ps[0]) then [ps[0]] else []) + Select(ps[1..], q)
  }

  lemma {:induction false} SelectUnique(ps: seq<Policy>, q: Query)
    requires UniqueIds(ps)
    ensures UniqueIds(Select(ps, q))
  {
    if ps != [] {
      SelectUnique(ps[1..], q);
      var rest := Select(ps[1..], q);
      forall i | 0 <= i < |rest| ensures rest[i].id != ps[0].id {
        assert rest[i] in ps[1..];
      }
    }
  }

  // ---------- Sorting ----------

  /** Scope levels other than tags sort with equal counts. */
  datatype Match = Match(policy: Policy, matchCount: nat)

  /** The sort comparator puts `a` before `b`; ids differ. */
  predicate Ahead(a: Match, b: Match) {
    a.matchCount > b.matchCount
    || (a.matchCount == b.matchCount && (a.policy.createdAt > b.policy.createdAt
                                         || (a.policy.createdAt == b.policy.createdAt && a.policy.id > b.policy.id)))
  }

  ghost predicate Distinct(ms: seq<Match>) {
    forall i, j :: 0 <= i < j < |ms| ==> ms[i].policy.id != ms[j].policy.id
  }

  ghost predicate Sorted(ms: seq<Match>) {
    forall i, j :: 0 <= i < j < |ms| ==> Ahead(ms[i], ms[j])
  }

  function Insert(m: Match, ms: seq<Match>): (s: seq<Match>)
    ensures forall x :: x in s <==> x == m || x in ms
  {
    if ms == [] then [m] else if Ahead(m, ms[0]) then [m] + ms else [ms[0]] + Insert(m, ms[1..])
  }

  function Sort(ms: seq<Match>): (s: seq<Match>)
    ensures forall x :: x in s <==> x in ms
  {
    if ms == [] then [] else Insert(ms[0], Sort(ms[1..]))
  }

  lemma {:induction false} InsertSorted(m: Match, ms: seq<Match>)
    requires Sorted(ms) && forall x :: x in ms ==> x.policy.id != m.policy.id
    ensures Sorted(Insert(m, ms))
  {
    if ms != [] {
      assert ms[0] in ms;
      if Ahead(m, ms[0]) {
        forall j | 0 <= j < |ms| ensures Ahead(m, ms[j]) {
          if j > 0 { assert Ahead(ms[0], ms[j]); }
        }
      } else {
        InsertSorted(m, ms[1..]);
        var rest := Insert(m, ms[1..]);
        forall j | 0 <= j < |rest| ensures Ahead(ms[0], rest[j]) {
          assert rest[j] in rest;
        }
      }
    }
  }

  lemma {:induction false} SortSorted(ms: seq<Match>)
    requires Distinct(ms)
    ensures Sorted(Sort(ms))
  {
    if ms != [] {
      SortSorted(ms[1..]);
      InsertSorted(ms[0], Sort(ms[1..]));
    }
  }

  ghost predicate Tops(m: Match, ms: seq<Match>) {
    m in ms && forall x :: x in ms && x != m ==> Ahead(m, x)
  }

  lemma SortedHeadTops(ms: seq<Match>)
    requires Distinct(ms) && ms != []
    ensures Sort(ms) != [] && Tops(Sort(ms)[0], ms)
  {
    SortSorted(ms);
    var s := Sort(ms);
    assert ms[0] in s;
    forall x | x in ms && x != s[0] ensures Ahead(s[0], x) {
      var k :| 0 <= k < |s| && s[k] == x;
    }
  }

  // ---------- One level ----------

  method FindExplicitBlobAssignment(db: Db, blobId: string) returns (r: Option<Policy>)
    requires UniqueIds(db.policies)
    ensures var rows := Select(db.policies, Explicit(db.assignments, blobId));
            if rows == [] then r.None? else r.Some? && r.value in rows && forall q :: q in rows && q != r.value ==> Newer(r.value, q)
  {
    var rows := Select(db.policies, Explicit(db.assignments, blobId));
    if |rows| == 0 {
      return None;
    }
    SelectUnique(db.policies, Explicit(db.assignments, blobId));
    var p := Latest(rows);
    return Some(p);
  }

  predicate Newer(p: Policy, q: Policy) { p.createdAt > q.createdAt || (p.createdAt == q.createdAt && p.id > q.id) }

  method Latest(rows: seq<Policy>) returns (p: Policy)
    requires UniqueIds(rows) && rows != []
    ensures p in rows && forall q :: q in rows && q != p ==> Newer(p, q)
  {
    var ms := seq(|rows|, i requires 0 <= i < |rows| => Match(rows[i], 0));
    SortedHeadTops(ms);
    p := Sort(ms)[0].policy;
    forall q | q in rows && q != p ensures Newer(p, q) {
      var k :| 0 <= k < |rows| && rows[k] == q;
      assert ms[k] == Match(q, 0) && ms[k] in ms;
    }
  }

  method ResolveTagPoliciesByTags(db: Db, org: string, tags: seq<string>) returns (r: Option<Resolved>)
    requires UniqueIds(db.policies)
    ensures r.None? ==> forall p :: p in Select(db.policies, TagRows(org)) ==> TagMatches(p, tags) == 0
    ensures r.Some? ==>
              && r.value.Chosen? && r.value.path == ["tag"]
              && var w := r.value.policy;
              && w in Select(db.policies, TagRows(org)) && TagMatches(w, tags) > 0
              && forall q :: q in Select(db.policies, TagRows(org)) && TagMatches(q, tags) > 0 && q != w
                             ==> Ahead(Match(w, TagMatches(w, tags)), Match(q, TagMatches(q, tags)))
  {
    var rows := Select(db.policies, TagRows(org));
    SelectUnique(db.policies, TagRows(org));
    var matching: seq<Match> := [];
    for i := 0 to |rows|
      invariant forall m :: m in matching ==> m.matchCount == TagMatches(m.policy, tags) > 0
                                              && exists j :: 0 <= j < i && rows[j] == m.policy
      invariant forall j :: 0 <= j < i && TagMatches(rows[j], tags) > 0 ==> Match(rows[j], TagMatches(rows[j], tags)) in matching
      invariant Distinct(matching)
    {
      var count := TagMatches(rows[i], tags);
      if count > 0 {
        assert forall k :: 0 <= k < |matching| ==> matching[k] in matching;
        matching := matching + [Match(rows[i], count)];
      }
    }
    if |matching| == 0 {
      return None;
    }
    SortedHeadTops(matching);
    return Some(Chosen(Sort(matching)[0].policy, ["tag"]));
  }

  method ResolveWithinScope(rows: seq<Policy>, path: seq<string>) returns (r: Resolved)
    requires UniqueIds(rows) && rows != []
    ensures r.Chosen? && r.policy in rows && forall q :: q in rows && q != r.policy ==> Newer(r.policy, q)
    ensures r.path == path + if |rows| > 1 then ["latest"] else []
  {
    if |rows| == 1 {
      return Chosen(rows[0], path);
    }
    var p := Latest(rows);
    return Chosen(p, path + ["latest"]);
  }

  // ---------- What resolution means ----------

  /** What a policy is resolved for; without a blob id there is no explicit and no blob level. */
  datatype Subject = Params(blobId: Option<string>, org: string, project: string, wallet: Option<string>, tags: seq<string>)

  function ForBlob(id: string, b: Blob): Subject { Params(Some(id), b.org, b.project, b.wallet, b.tags) }

  /** The level at which a policy applies, 0 the most specific, 6 for a policy that does not apply. */
  function Standing(db: Db, t: Subject, p: Policy): nat {
    if !p.active then 6
    else if t.blobId.Some? && Assignment(p.id, t.blobId.value) in db.assignments then 0
    else if p.org != t.org then 6
    else
      match p.scope
      case BlobScope => if t.blobId.Some? && p.target == t.blobId then 1 else 6
      case TagScope => if TagMatches(p, t.tags) > 0 then 2 else 6
      case WalletScope => if t.wallet.Some? && p.target == t.wallet then 3 else 6
      case ProjectScope => if p.target == Some(t.project) then 4 else 6
      case OrganizationScope => if p.target == Some(t.org) then 5 else 6
      case NoScope => 6
  }

  /** More specific level first; among tags, more matches; then later; then the greater id. */
  predicate Beats(db: Db, t: Subject, p: Policy, q: Policy) {
    var a, b := Standing(db, t, p), Standing(db, t, q);
    a < b || (a == b && Ahead(Match(p, if a == 2 then TagMatches(p, t.tags) else 0), Match(q, if a == 2 then TagMatches(q, t.tags) else 0)))
  }

  function PathAt(level: nat, shared: bool): seq<string> {
    var latest := if shared then ["latest"] else [];
    match level
    case 0 => ["blob", "explicit"]
    case 1 => ["blob", "scope"] + latest
    case 2 => ["tag"]
    case 3 => ["wallet"] + latest
    case 4 => ["project"] + latest
    case _ => ["organization"] + latest
  }

  ghost predicate Shares(db: Db, t: Subject, p: Policy) {
    exists q :: q in db.policies && q != p && Standing(db, t, q) == Standing(db, t, p)
  }

  /** The one maximum of all rows; nothing here depends on their order. */
  ghost predicate IsEffective(db: Db, t: Subject, r: Resolved) {
    match r
    case SystemDefault => forall p :: p in db.policies ==> Standing(db, t, p) == 6
    case Chosen(p, path) =>
      && p in db.policies && Standing(db, t, p) < 6
      && (forall q :: q in db.policies && q != p ==> Beats(db, t, p, q))
      && path == PathAt(Standing(db, t, p), Shares(db, t, p))
  }

  lemma {:induction false} NoMatches(policyTags: seq<string>)
    ensures MatchCount(policyTags, []) == 0
  {
    if policyTags != [] { NoMatches(policyTags[1..]); }
  }

  lemma NoTagsNoMatches(ps: seq<Policy>, tags: seq<string>)
    ensures tags == [] ==> forall p :: p in ps ==> TagMatches(p, tags) == 0
  {
    forall p | p in ps && tags == [] ensures TagMatches(p, tags) == 0 {
      NoMatches(TagsOf(p.rules));
    }
  }

  // ---------- From level to level ----------

  function LevelQuery(t: Subject, level: nat): Query
    requires Queried(t, level)
  {
    match level
    case 1 => AtScope(t.org, BlobScope, t.blobId.value)
    case 3 => AtScope(t.org, WalletScope, t.wallet.value)
    case 4 => AtScope(t.org, ProjectScope, t.project)
    case _ => AtScope(t.org, OrganizationScope, t.org)
  }

  /** The levels resolved by scope and target, where the subject has that target. */
  predicate Queried(t: Subject, level: nat) {
    (level == 1 && t.blobId.Some?) || (level == 3 && t.wallet.Some?) || level == 4 || level == 5
  }

  ghost predicate NothingAbove(db: Db, t: Subject, level: nat) {
    forall p :: p in db.policies ==> Standing(db, t, p) >= level
  }

  lemma QueryIsLevel(db: Db, t: Subject, level: nat)
    requires Queried(t, level) && NothingAbove(db, t, level)
    ensures forall p :: p in Select(db.policies, LevelQuery(t, level)) <==> p in db.policies && Standing(db, t, p) == level
    ensures Select(db.policies, LevelQuery(t, level)) == [] ==> NothingAbove(db, t, level + 1)
  {
    var rows := Select(db.policies, LevelQuery(t, level));
    if rows == [] {
      forall p | p in db.policies ensures Standing(db, t, p) >= level + 1 {
        assert p !in rows;
      }
    }
  }

  /** The latest row of the first level that has rows is effective. */
  lemma LatestOfLevelIsEffective(db: Db, t: Subject, level: nat, r: Resolved, path: seq<string>)
    requires UniqueIds(db.policies) && Queried(t, level) && NothingAbove(db, t, level)
    requires path == PathAt(level, false)
    requires var rows := Select(db.policies, LevelQuery(t, level));
             && r.Chosen? && r.policy in rows && (forall q :: q in rows && q != r.policy ==> Newer(r.policy, q))
             && r.path == path + if |rows| > 1 then ["latest"] else []
    ensures IsEffective(db, t, r)
  {
    hide Standing, Select, LevelQuery;
    var rows := Select(db.policies, LevelQuery(t, level));
    SelectUnique(db.policies, LevelQuery(t, level));
    QueryIsLevel(db, t, level);
    if |rows| > 1 {
      var other := if rows[0] == r.policy then rows[1] else rows[0];
      assert rows[0].id != rows[1].id && other in rows;
      assert Shares(db, t, r.policy);
    } else {
      assert rows == [r.policy];
      assert !Shares(db, t, r.policy);
    }
    forall q | q in db.policies && q != r.policy ensures Beats(db, t, r.policy, q) {
      assert Standing(db, t, q) == level ==> q in rows;
    }
  }

  lemma TagRowsAreLevel(db: Db, t: Subject)
    requires NothingAbove(db, t, 2)
    ensures forall p :: p in Select(db.policies, TagRows(t.org)) && TagMatches(p, t.tags) > 0 <==> p in db.policies && Standing(db, t, p) == 2
  {
  }

  lemma ExplicitRowsAreLevel(db: Db, t: Subject)
    requires t.blobId.Some?
    ensures forall p :: p in Select(db.policies, Explicit(db.assignments, t.blobId.value)) <==> p in db.policies && Standing(db, t, p) == 0
  {
  }

  // ---------- The resolver ----------

  /** The tag level and below, on which both entry points run the same statements. */
  method ResolveFromTags(db: Db, t: Subject) returns (r: Resolved)
    requires UniqueIds(db.policies) && NothingAbove(db, t, 2)
    ensures IsEffective(db, t, r)
  {
    TagRowsAreLevel(db, t);
    NoTagsNoMatches(db.policies, t.tags);
    hide Standing, Select, Hits;
    if |t.tags| > 0 {
      var tagged := ResolveTagPoliciesByTags(db, t.org, t.tags);
      if tagged.Some? {
        assert IsEffective(db, t, tagged.value);
        return tagged.value;
      }
    }
    assert NothingAbove(db, t, 3);
    if t.wallet.Some? {
      QueryIsLevel(db, t, 3);
      SelectUnique(db.policies, LevelQuery(t, 3));
      var rows := Select(db.policies, AtScope(t.org, WalletScope, t.wallet.value));
      if |rows| > 0 {
        r := ResolveWithinScope(rows, ["wallet"]);
        LatestOfLevelIsEffective(db, t, 3, r, ["wallet"]);
        return;
      }
    } else {
      NoWalletNoLevel(db, t);
    }
    QueryIsLevel(db, t, 4);
    SelectUnique(db.policies, LevelQuery(t, 4));
    var rows := Select(db.policies, AtScope(t.org, ProjectScope, t.project));
    if |rows| > 0 {
      r := ResolveWithinScope(rows, ["project"]);
      LatestOfLevelIsEffective(db, t, 4, r, ["project"]);
      return;
    }
    QueryIsLevel(db, t, 5);
    SelectUnique(db.policies, LevelQuery(t, 5));
    rows := Select(db.policies, AtScope(t.org, OrganizationScope, t.org));
    if |rows| > 0 {
      r := ResolveWithinScope(rows, ["organization"]);
      LatestOfLevelIsEffective(db, t, 5, r, ["organization"]);
      return;
    }
    StandingRange(db, t);
    return SystemDefault;
  }

  lemma NoWalletNoLevel(db: Db, t: Subject)
    requires t.wallet.None? && NothingAbove(db, t, 3)
    ensures NothingAbove(db, t, 4)
  {
  }

  lemma StandingRange(db: Db, t: Subject)
    ensures forall p :: p in db.policies ==> Standing(db, t, p) <= 6
  {
  }

  lemma NoBlobNoLevels(db: Db, t: Subject)
    requires t.blobId.None?
    ensures NothingAbove(db, t, 2)
  {
  }

  method ResolveFromScope(db: Db, org: string, project: string, wallet: Option<string>, tags: seq<string>) returns (r: Resolved)
    requires UniqueIds(db.policies)
    ensures IsEffective(db, Params(None, org, project, wallet, tags), r)
  {
    var t := Params(None, org, project, wallet, tags);
    NoBlobNoLevels(db, t);
    r := ResolveFromTags(db, t);
  }

  method ResolveEffectivePolicy(db: Db, blobId: string) returns (r: Result<Resolved, ResolveError>)
    requires UniqueIds(db.policies)
    ensures blobId !in db.blobs ==> r == Err(BlobNotFound)
    ensures blobId in db.blobs ==> r.Ok? && IsEffective(db, ForBlob(blobId, db.blobs[blobId]), r.value)
  {
    if blobId !in db.blobs {
      return Err(BlobNotFound);
    }
    var blob := db.blobs[blobId];
    var t := ForBlob(blobId, blob);
    ExplicitRowsAreLevel(db, t);
    hide Standing, Select, Hits;
    var explicit := FindExplicitBlobAssignment(db, blobId);
    if explicit.Some? {
      assert IsEffective(db, t, Chosen(explicit.value, ["blob", "explicit"]));
      return Ok(Chosen(explicit.value, ["blob", "explicit"]));
    }
    assert NothingAbove(db, t, 1);
    QueryIsLevel(db, t, 1);
    SelectUnique(db.policies, LevelQuery(t, 1));
    var rows := Select(db.policies, AtScope(blob.org, BlobScope, blobId));
    var rest: Resolved;
    if |rows| > 0 {
      rest := ResolveWithinScope(rows, ["blob", "scope"]);
      LatestOfLevelIsEffective(db, t, 1, rest, ["blob", "scope"]);
      return Ok(rest);
    }
    rest := ResolveFromTags(db, t);
    return Ok(rest);
  }

  // ---------- Theorems ----------

  lemma BeatsIsAsymmetric(db: Db, t: Subject, p: Policy, q: Policy)
    ensures !(Beats(db, t, p, q) && Beats(db, t, q, p))
  {
  }

  /**
   Resolution is a function of the set of rows: whatever orders the policies and assignments are
   read in, the winner and its path are the same.
   */
  lemma ResolutionIgnoresOrder(a: Db, b: Db, t: Subject, ra: Resolved, rb: Resolved)
    requires forall p :: p in a.policies <==> p in b.policies
    requires forall x :: x in a.assignments <==> x in b.assignments
    requires IsEffective(a, t, ra) && IsEffective(b, t, rb)
    ensures ra == rb
  {
    forall p ensures Standing(a, t, p) == Standing(b, t, p) {}
    if ra.Chosen? && rb.Chosen? {
      BeatsIsAsymmetric(a, t, ra.policy, rb.policy);
      assert Shares(a, t, ra.policy) == Shares(b, t, ra.policy);
    }
  }

  /** The policy is assigned to the blob it is resolved for. */
  predicate Assigned(db: Db, t: Subject, p: Policy) {
    p.active && t.blobId.Some? && Assignment(p.id, t.blobId.value) in db.assignments
  }

  /** It is active, in the subject's organization, of this scope and, but for tags, aimed at this target. */
  predicate Aimed(t: Subject, p: Policy, scope: ScopeKind, target: Option<string>) {
    p.active && p.org == t.org && p.scope == scope && target.Some? && p.target == target
  }

  predicate Tagged(t: Subject, p: Policy) {
    p.active && p.org == t.org && p.scope == TagScope && exists tag :: tag in TagsOf(p.rules) && tag in t.tags
  }

  lemma {:induction false} MatchesSomething(policyTags: seq<string>, tags: seq<string>)
    ensures MatchCount(policyTags, tags) > 0 <==> exists tag :: tag in policyTags && tag in tags
  {
    if policyTags != [] { MatchesSomething(policyTags[1..], tags); }
  }

  /**
   Which policy wins, from the most specific on: an assigned one; else one aimed at the blob; else one
   that shares a tag; else one aimed at the wallet; else at the project; else at the organization; and
   the system default only when there is none of these. The path names the level.
   */
  lemma MostSpecificWins(db: Db, t: Subject, r: Resolved, q: Policy)
    requires IsEffective(db, t, r) && q in db.policies
    ensures Assigned(db, t, q) ==> r.Chosen? && Assigned(db, t, r.policy) && r.path == ["blob", "explicit"]
    ensures Aimed(t, q, BlobScope, t.blobId) ==>
              r.Chosen? && (Assigned(db, t, r.policy) || (Aimed(t, r.policy, BlobScope, t.blobId) && r.path[..2] == ["blob", "scope"]))
    ensures Tagged(t, q) ==>
              r.Chosen? && (Assigned(db, t, r.policy) || Aimed(t, r.policy, BlobScope, t.blobId) || (Tagged(t, r.policy) && r.path == ["tag"]))
    ensures Aimed(t, q, WalletScope, t.wallet) ==>
              r.Chosen? && (Assigned(db, t, r.policy) || Aimed(t, r.policy, BlobScope, t.blobId) || Tagged(t, r.policy)
                            || (Aimed(t, r.policy, WalletScope, t.wallet) && r.path[..1] == ["wallet"]))
    ensures Aimed(t, q, ProjectScope, Some(t.project)) ==>
              r.Chosen? && (Assigned(db, t, r.policy) || Aimed(t, r.policy, BlobScope, t.blobId) || Tagged(t, r.policy)
                            || Aimed(t, r.policy, WalletScope, t.wallet)
                            || (Aimed(t, r.policy, ProjectScope, Some(t.project)) && r.path[..1] == ["project"]))
    ensures Aimed(t, q, OrganizationScope, Some(t.org)) ==> r.Chosen?
    ensures r.Chosen? ==>
              || Assigned(db, t, r.policy) || Aimed(t, r.policy, BlobScope, t.blobId) || Tagged(t, r.policy)
              || Aimed(t, r.policy, WalletScope, t.wallet) || Aimed(t, r.policy, ProjectScope, Some(t.project))
              || (Aimed(t, r.policy, OrganizationScope, Some(t.org)) && r.path[..1] == ["organization"])
  {
    NothingMoreSpecific(db, t, r, q);
    LevelsSpelled(db, t, q);
    if r.Chosen? { LevelsSpelled(db, t, r.policy); }
    hide Standing, Assigned, Aimed, Tagged, Beats;
  }

  lemma LevelsSpelled(db: Db, t: Subject, p: Policy)
    ensures Standing(db, t, p) == 0 <==> Assigned(db, t, p)
    ensures Standing(db, t, p) == 1 <==> !Assigned(db, t, p) && Aimed(t, p, BlobScope, t.blobId)
    ensures Standing(db, t, p) == 2 <==> !Assigned(db, t, p) && Tagged(t, p)
    ensures Standing(db, t, p) == 3 <==> !Assigned(db, t, p) && Aimed(t, p, WalletScope, t.wallet)
    ensures Standing(db, t, p) == 4 <==> !Assigned(db, t, p) && Aimed(t, p, ProjectScope, Some(t.project))
    ensures Standing(db, t, p) == 5 <==> !Assigned(db, t, p) && Aimed(t, p, OrganizationScope, Some(t.org))
    ensures Standing(db, t, p) <= 6
  {
    MatchesSomething(TagsOf(p.rules), t.tags);
    hide MatchCount, TagsOf;
  }

  /** And below the explicit level and tags the path says whether there was a choice. */
  lemma PathSaysLatest(db: Db, t: Subject, r: Resolved)
    requires IsEffective(db, t, r) && r.Chosen? && !Assigned(db, t, r.policy) && !Tagged(t, r.policy)
    ensures r.path != [] && (r.path[|r.path| - 1] == "latest" <==>
              exists q :: q in db.policies && q != r.policy && Standing(db, t, q) == Standing(db, t, r.policy))
  {
    LevelsSpelled(db, t, r.policy);
    assert "wallet"[0] != "latest"[0] && |"scope"| != |"latest"| && |"project"| != |"latest"| && |"organization"| != |"latest"|;
    hide Standing, Assigned, Tagged;
  }

  /**
   Spelled out: among the policies of its own level the winner is the latest, and of those created at
   the same time the one with the greatest id; among tag policies the number of matching tags comes first.
   */
  lemma WinnerAmongItsLevel(db: Db, t: Subject, r: Resolved, q: Policy)
    requires IsEffective(db, t, r) && r.Chosen? && q in db.policies && q != r.policy
    requires Standing(db, t, q) == Standing(db, t, r.policy)
    ensures var p, m, n := r.policy, TagMatches(r.policy, t.tags), TagMatches(q, t.tags);
            var newer := p.createdAt > q.createdAt || (p.createdAt == q.createdAt && p.id > q.id);
            if Standing(db, t, p) == 2 then m > n || (m == n && newer) else newer
  {
    assert Beats(db, t, r.policy, q);
  }

  /** Every policy of a more specific level is passed over only because there is none. */
  lemma NothingMoreSpecific(db: Db, t: Subject, r: Resolved, q: Policy)
    requires IsEffective(db, t, r) && q in db.policies
    ensures r.Chosen? ==> Standing(db, t, r.policy) <= Standing(db, t, q)
    ensures r.SystemDefault? ==> Standing(db, t, q) == 6
  {
    if r.Chosen? && q != r.policy { assert Beats(db, t, r.policy, q); }
  }

  /** Adding a policy that stands at a broader level than the winner, or nowhere, changes nothing. */
  lemma BroaderPolicyChangesNothing(db: Db, t: Subject, extra: Policy, r: Resolved)
    requires IsEffective(db, t, r) && r.Chosen?
    requires Standing(db, t, extra) > Standing(db, t, r.policy)
    ensures IsEffective(db.(policies := db.policies + [extra]), t, r)
  {
    var more := db.(policies := db.policies + [extra]);
    forall p ensures Standing(more, t, p) == Standing(db, t, p) {}
    forall q | q in more.policies && q != r.policy ensures Beats(more, t, r.policy, q) {
      assert q == extra || q in db.policies;
    }
    assert Shares(more, t, r.policy) == Shares(db, t, r.policy);
  }

  /** An added policy replaces the winner exactly when it beats it. */
  lemma AddedPolicyWinsExactlyWhenItBeats(db: Db, t: Subject, extra: Policy, r: Resolved, s: Resolved)
    requires UniqueIds(db.policies + [extra])
    requires IsEffective(db, t, r) && r.Chosen?
    requires IsEffective(db.(policies := db.policies + [extra]), t, s)
    ensures s.Chosen?
    ensures s.policy == if Beats(db, t, extra, r.policy) then extra else r.policy
  {
    var more := db.(policies := db.policies + [extra]);
    forall p ensures Standing(more, t, p) == Standing(db, t, p) {}
    assert r.policy in more.policies && extra in more.policies;
    var k :| 0 <= k < |db.policies| && db.policies[k] == r.policy;
    assert (db.policies + [extra])[k] == r.policy && (db.policies + [extra])[|db.policies|] == extra;
    assert s.Chosen?;
    assert s.policy in db.policies || s.policy == extra;
    assert forall p, q :: Beats(more, t, p, q) == Beats(db, t, p, q);
  }

  /** With no explicit assignment and no blob-scope policy, resolving a blob and resolving its scope give one answer. */
  lemma ScopeResolutionAgrees(db: Db, blobId: string, ofBlob: Resolved, ofScope: Resolved)
    requires blobId in db.blobs
    requires Select(db.policies, Explicit(db.assignments, blobId)) == []
    requires Select(db.policies, AtScope(db.blobs[blobId].org, BlobScope, blobId)) == []
    requires var b := db.blobs[blobId];
             && IsEffective(db, ForBlob(blobId, b), ofBlob)
             && IsEffective(db, Params(None, b.org, b.project, b.wallet, b.tags), ofScope)
    ensures ofBlob == ofScope
  {
    var b := db.blobs[blobId];
    var t, u := ForBlob(blobId, b), Params(None, b.org, b.project, b.wallet, b.tags);
    forall p | p in db.policies ensures Standing(db, t, p) == Standing(db, u, p) {
      assert p !in Select(db.policies, Explicit(db.assignments, blobId));
      assert p !in Select(db.policies, AtScope(b.org, BlobScope, blobId));
    }
    if ofBlob.Chosen? && ofScope.Chosen? {
      BeatsIsAsymmetric(db, t, ofBlob.policy, ofScope.policy);
      assert Shares(db, t, ofBlob.policy) == Shares(db, u, ofBlob.policy);
    }
  }

  // ---------- Narrowness ----------

  function MatchedTags(policyTags: seq<string>, tags: seq<string>): set<string> {
    set x | x in policyTags && x in tags
  }

  ghost predicate RepeatsMatch(policyTags: seq<string>, tags: seq<string>) {
    exists i, j :: 0 <= i < j < |policyTags| && policyTags[i] == policyTags[j] && policyTags[i] in tags
  }

  /** The count that ranks tag policies is the number of tags matched exactly when no matched tag is listed twice. */
  lemma {:induction false} CountIsNarrownessExactlyWithoutRepeats(policyTags: seq<string>, tags: seq<string>)
    ensures MatchCount(policyTags, tags) >= |MatchedTags(policyTags, tags)|
    ensures MatchCount(policyTags, tags) == |MatchedTags(policyTags, tags)| <==> !RepeatsMatch(policyTags, tags)
  {
    if policyTags != [] {
      var x, rest := policyTags[0], policyTags[1..];
      CountIsNarrownessExactlyWithoutRepeats(rest, tags);
      var before := MatchedTags(rest, tags);
      if x !in tags {
        assert MatchedTags(policyTags, tags) == before;
        assert RepeatsMatch(policyTags, tags) == RepeatsMatch(rest, tags) by { RepeatsShift(policyTags, tags); }
      } else if x in rest {
        assert MatchedTags(policyTags, tags) == before;
        var j :| 0 <= j < |rest| && rest[j] == x;
        assert policyTags[j + 1] == policyTags[0];
      } else {
        assert MatchedTags(policyTags, tags) == before + {x};
        assert RepeatsMatch(policyTags, tags) == RepeatsMatch(rest, tags) by { RepeatsShift(policyTags, tags); }
      }
    }
  }

  lemma RepeatsShift(policyTags: seq<string>, tags: seq<string>)
    requires policyTags != [] && (policyTags[0] !in tags || policyTags[0] !in policyTags[1..])
    ensures RepeatsMatch(policyTags, tags) <==> RepeatsMatch(policyTags[1..], tags)
  {
    var rest := policyTags[1..];
    if RepeatsMatch(policyTags, tags) {
      var i, j :| 0 <= i < j < |policyTags| && policyTags[i] == policyTags[j] && policyTags[i] in tags;
      assert rest[j - 1] == policyTags[j];
      assert i > 0;
      assert rest[i - 1] == rest[j - 1];
    }
    if RepeatsMatch(rest, tags) {
      var i, j :| 0 <= i < j < |rest| && rest[i] == rest[j] && rest[i] in tags;
      assert policyTags[i + 1] == policyTags[j + 1];
    }
  }
}
