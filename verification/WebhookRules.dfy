/** The rules of the webhook configurations, computed from observed kinds through unordered maps and sets. */
module WebhookRules {
  import opened Wrappers
  import opened Ordering

  datatype GVK = GVK(group: string, version: string, kind: string)

  datatype GroupResource = GroupResource(group: string, resource: string)

  datatype Rule = Rule(
    operations: seq<string>,
    apiGroups: seq<string>,
    apiVersions: seq<string>,
    resources: seq<string>
  )

  /* ---- sorted lists ---- */

  ghost predicate Ascending(s: seq<string>)
  {
    forall i, j :: 0 <= i < j < |s| ==> StringLess(s[i], s[j])
  }

  ghost predicate StrictOrder<T(!new)>(less: (T, T) -> bool)
  {
    && (forall x, y :: !(less(x, y) && less(y, x)))
    && forall x, y :: less(x, y) || x == y || less(y, x)
  }

  ghost predicate Ordered<T>(less: (T, T) -> bool, s: seq<T>)
  {
    forall i, j :: 0 <= i < j < |s| ==> less(s[i], s[j])
  }

  lemma HasMember<T>(s: seq<T>)
    requires s != []
    ensures exists x :: x in s
  {
    assert s[0] in s;
  }

  lemma OrderedTail<T(!new)>(less: (T, T) -> bool, a: seq<T>, x: T)
    requires StrictOrder(less) && a != [] && Ordered(less, a)
    ensures x in a[1..] <==> x in a && x != a[0]
  {
    if x in a && x != a[0] {
      var i :| 0 <= i < |a| && a[i] == x;
      assert a[1..][i - 1] == x;
    }
  }

  /** A strictly ordered list is determined by its elements. */
  lemma {:induction false} OrderedUnique<T(!new)>(less: (T, T) -> bool, a: seq<T>, b: seq<T>)
    requires StrictOrder(less) && Ordered(less, a) && Ordered(less, b) && forall x :: x in a <==> x in b
    ensures a == b
    decreases |a|
  {
    if a == [] {
      if b != [] {
        HasMember(b);
        assert false;
      }
    } else {
      assert a[0] in b;
      assert b[0] in a;
      forall x
        ensures x in a[1..] <==> x in b[1..]
      {
        OrderedTail(less, a, x);
        OrderedTail(less, b, x);
      }
      OrderedUnique(less, a[1..], b[1..]);
      assert a == [a[0]] + a[1..] && b == [b[0]] + b[1..];
    }
  }

  lemma AscendingUnique(a: seq<string>, b: seq<string>)
    requires Ascending(a) && Ascending(b) && forall x :: x in a <==> x in b
    ensures a == b
  {
    forall x, y
      ensures !(StringLess(x, y) && StringLess(y, x)) && (StringLess(x, y) || x == y || StringLess(y, x))
    {
      StringLessTotal(x, y);
    }
    OrderedUnique(StringLess, a, b);
  }

  lemma SortedInsertion(s: seq<string>, i: nat, x: string)
    requires Ascending(s) && i <= |s|
    requires forall k :: 0 <= k < i ==> StringLess(s[k], x)
    requires forall k :: i <= k < |s| ==> StringLess(x, s[k])
    ensures Ascending(s[..i] + [x] + s[i..])
    ensures forall y :: y in s[..i] + [x] + s[i..] <==> y in s || y == x
  {
    assert s == s[..i] + s[i..];
  }

  /** sets.String.List: the elements of a set, sorted. */
  method List(elements: set<string>) returns (r: seq<string>)
    ensures Ascending(r) && forall x :: x in r <==> x in elements
  {
    r := [];
    var todo := elements;
    while todo != {}
      invariant Ascending(r) && todo <= elements
      invariant forall x :: x in r <==> x in elements - todo
      decreases todo
    {
      var x :| x in todo;
      var i := 0;
      while i < |r| && StringLess(r[i], x)
        invariant 0 <= i <= |r|
        invariant forall k :: 0 <= k < i ==> StringLess(r[k], x)
      {
        i := i + 1;
      }
      forall k | i <= k < |r|
        ensures StringLess(x, r[k])
      {
        assert r[k] in r && r[i] in r;
        StringLessTotal(x, r[i]);
        if k > i {
          StringLessTransitive(x, r[i], r[k]);
        }
      }
      SortedInsertion(r, i, x);
      r := r[..i] + [x] + r[i..];
      todo := todo - {x};
    }
  }

  /* ---- what the rules must be ---- */

  /** The order in which access is asked about. */
  predicate PairLess(p: GroupResource, q: GroupResource)
  {
    StringLess(p.group, q.group) || (p.group == q.group && StringLess(p.resource, q.resource))
  }

  /** The access checker's answer to the n-th question, which is about `p`; it may change from one to the next. */
  type Access = (nat, GroupResource) -> bool

  /** The pairs that access has been granted for. */
  ghost function Granted(asked: seq<GroupResource>, access: Access): set<GroupResource>
  {
    set n | 0 <= n < |asked| && access(n, asked[n]) :: asked[n]
  }

  /** Access is asked about each resource of a mapped kind, once and in order. */
  ghost predicate AskedOnce(gvks: seq<GVK>, mapper: map<GVK, GroupResource>, asked: seq<GroupResource>)
  {
    && Ordered(PairLess, asked)
    && forall p :: p in asked <==> exists k :: k in gvks && k in mapper && mapper[k] == p
  }

  predicate RuleFor(operations: seq<string>, r: Rule)
  {
    r.operations == operations && |r.apiGroups| == 1 && r.apiVersions == ["*"]
  }

  /** One rule for each group, in ascending order; each with a non-empty ascending list of resources; together
      they cover exactly `pairs`. */
  ghost predicate Canonical(operations: seq<string>, pairs: set<GroupResource>, rules: seq<Rule>)
  {
    && (forall i :: 0 <= i < |rules| ==>
          RuleFor(operations, rules[i]) && rules[i].resources != [] && Ascending(rules[i].resources))
    && (forall i, j :: 0 <= i < j < |rules| ==> StringLess(rules[i].apiGroups[0], rules[j].apiGroups[0]))
    && (forall i, x :: 0 <= i < |rules| && x in rules[i].resources ==> GroupResource(rules[i].apiGroups[0], x) in pairs)
    && (forall p :: p in pairs ==>
          exists i :: 0 <= i < |rules| && rules[i].apiGroups[0] == p.group && p.resource in rules[i].resources)
  }

  ghost function Groups(rules: seq<Rule>): seq<string>
    requires forall i :: 0 <= i < |rules| ==> |rules[i].apiGroups| == 1
  {
    seq(|rules|, i requires 0 <= i < |rules| => rules[i].apiGroups[0])
  }

  lemma GroupCovered(operations: seq<string>, pairs: set<GroupResource>, a: seq<Rule>, b: seq<Rule>, g: string)
    requires Canonical(operations, pairs, a) && Canonical(operations, pairs, b) && g in Groups(a)
    ensures g in Groups(b)
  {
    var i :| 0 <= i < |a| && Groups(a)[i] == g;
    var x := a[i].resources[0];
    assert x in a[i].resources;
    assert GroupResource(g, x) in pairs;
    var k :| 0 <= k < |b| && b[k].apiGroups[0] == g && x in b[k].resources;
    assert Groups(b)[k] == g;
  }

  lemma ResourceCovered(operations: seq<string>, pairs: set<GroupResource>, a: seq<Rule>, b: seq<Rule>, i: nat,
                        x: string)
    requires Canonical(operations, pairs, a) && Canonical(operations, pairs, b)
    requires i < |a| && i < |b| && a[i].apiGroups[0] == b[i].apiGroups[0] && x in a[i].resources
    ensures x in b[i].resources
  {
    assert GroupResource(a[i].apiGroups[0], x) in pairs;
    var k :| 0 <= k < |b| && b[k].apiGroups[0] == a[i].apiGroups[0] && x in b[k].resources;
    StringLessTotal(b[k].apiGroups[0], b[i].apiGroups[0]);
  }

  lemma SameGroups(operations: seq<string>, pairs: set<GroupResource>, a: seq<Rule>, b: seq<Rule>)
    requires Canonical(operations, pairs, a) && Canonical(operations, pairs, b)
    ensures Groups(a) == Groups(b)
  {
    forall g
      ensures g in Groups(a) <==> g in Groups(b)
    {
      if g in Groups(a) { GroupCovered(operations, pairs, a, b, g); }
      if g in Groups(b) { GroupCovered(operations, pairs, b, a, g); }
    }
    AscendingUnique(Groups(a), Groups(b));
  }

  lemma SameResources(operations: seq<string>, pairs: set<GroupResource>, a: seq<Rule>, b: seq<Rule>, i: nat)
    requires Canonical(operations, pairs, a) && Canonical(operations, pairs, b)
    requires i < |a| && i < |b| && a[i].apiGroups[0] == b[i].apiGroups[0]
    ensures a[i].resources == b[i].resources
  {
    forall x
      ensures x in a[i].resources <==> x in b[i].resources
    {
      if x in a[i].resources { ResourceCovered(operations, pairs, a, b, i, x); }
      if x in b[i].resources { ResourceCovered(operations, pairs, b, a, i, x); }
    }
    AscendingUnique(a[i].resources, b[i].resources);
  }

  /** There is one canonical list of rules for a set of pairs. */
  lemma CanonicalUnique(operations: seq<string>, pairs: set<GroupResource>, a: seq<Rule>, b: seq<Rule>)
    requires Canonical(operations, pairs, a) && Canonical(operations, pairs, b)
    ensures a == b
  {
    SameGroups(operations, pairs, a, b);
    assert |a| == |Groups(a)| == |Groups(b)| == |b|;
    forall i | 0 <= i < |a|
      ensures a[i] == b[i]
    {
      assert Groups(a)[i] == Groups(b)[i];
      assert a[i].apiGroups == [Groups(a)[i]] && b[i].apiGroups == [Groups(b)[i]];
      SameResources(operations, pairs, a, b, i);
    }
  }

  /* ---- how they are computed ---- */

  predicate InTable(table: map<string, set<string>>, p: GroupResource)
  {
    p.group in table && p.resource in table[p.group]
  }

  /** The table of the mapped kinds among the first ones. */
  ghost predicate TableOf(gvks: seq<GVK>, mapper: map<GVK, GroupResource>, table: map<string, set<string>>)
  {
    forall p :: InTable(table, p) <==> exists k :: k in gvks && k in mapper && mapper[k] == p
  }

  /** Deduplicates the observed kinds into a table from group to resources. */
  method Dedup(gvks: seq<GVK>, mapper: map<GVK, GroupResource>) returns (r: Outcome<map<string, set<string>>>)
    ensures r.Ok? <==> forall k :: k in gvks ==> k in mapper
    ensures !r.Panic?
    ensures r.Ok? ==> TableOf(gvks, mapper, r.value)
  {
    var table: map<string, set<string>> := map[];
    for i := 0 to |gvks|
      invariant forall k :: k in gvks[..i] ==> k in mapper
      invariant TableOf(gvks[..i], mapper, table)
    {
      assert gvks[..i + 1] == gvks[..i] + [gvks[i]];
      if gvks[i] !in mapper {
        return Error;
      }
      var gvr := mapper[gvks[i]];
      ghost var before := table;
      if gvr.group !in table {
        table := table[gvr.group := {}];
      }
      table := table[gvr.group := table[gvr.group] + {gvr.resource}];
      forall p
        ensures InTable(table, p) <==> InTable(before, p) || p == gvr
      {
      }
    }
    assert gvks[..|gvks|] == gvks;
    r := Ok(table);
  }

  function PairsOf(group: string, resources: seq<string>): seq<GroupResource>
  {
    seq(|resources|, i requires 0 <= i < |resources| => GroupResource(group, resources[i]))
  }

  /** The resource is among the listed ones, and access to it is granted. */
  ghost predicate GrantedAt(group: string, listed: seq<string>, access: Access, first: nat, x: string)
  {
    exists i :: 0 <= i < |listed| && listed[i] == x && access(first + i, GroupResource(group, x))
  }

  lemma ListedOnce(listed: seq<string>, i: nat)
    requires Ascending(listed) && i < |listed|
    ensures forall k :: 0 <= k < |listed| && k != i ==> listed[k] != listed[i]
  {
    forall k | 0 <= k < |listed| && k != i
      ensures listed[k] != listed[i]
    {
      StringLessTotal(listed[k], listed[i]);
    }
  }

  /** The first `i` resources have been checked, and those without access have been taken out. */
  ghost predicate Checked(group: string, listed: seq<string>, access: Access, first: nat, i: nat, left: set<string>)
  {
    && (forall x :: x in left ==> x in listed)
    && forall k :: 0 <= k < |listed| ==>
         (listed[k] in left <==> k >= i || access(first + k, GroupResource(group, listed[k])))
  }

  lemma CheckedNext(group: string, listed: seq<string>, access: Access, first: nat, i: nat, left: set<string>)
    requires Ascending(listed) && i < |listed| && Checked(group, listed, access, first, i, left)
    ensures Checked(group, listed, access, first, i + 1,
              if access(first + i, GroupResource(group, listed[i])) then left else left - {listed[i]})
  {
    ListedOnce(listed, i);
  }

  lemma CheckedAll(group: string, listed: seq<string>, access: Access, first: nat, left: set<string>)
    requires Checked(group, listed, access, first, |listed|, left)
    ensures forall x :: x in left <==> GrantedAt(group, listed, access, first, x)
  {
  }

  /** The resources of one group that may be accessed. The questions are numbered from `first`. */
  method Resources(group: string, found: set<string>, access: Access, first: nat)
    returns (r: seq<string>, listed: seq<string>)
    ensures Ascending(listed) && forall x :: x in listed <==> x in found
    ensures Ascending(r)
    ensures forall x :: x in r <==> GrantedAt(group, listed, access, first, x)
  {
    var resources := found;
    listed := List(found);
    for i := 0 to |listed|
      invariant Checked(group, listed, access, first, i, resources)
    {
      CheckedNext(group, listed, access, first, i, resources);
      if !access(first + i, GroupResource(group, listed[i])) {
        resources := resources - {listed[i]};
      }
    }
    CheckedAll(group, listed, access, first, resources);
    r := List(resources);
  }

  /** What is known after the groups listed so far. */
  ghost predicate Partial(operations: seq<string>, table: map<string, set<string>>, access: Access, groups: seq<string>,
                          asked: seq<GroupResource>, rules: seq<Rule>)
  {
    && Canonical(operations, Granted(asked, access), rules)
    && Ordered(PairLess, asked)
    && forall p :: p in asked <==> InTable(table, p) && p.group in groups
  }

  lemma CanonicalGrows(operations: seq<string>, before: set<GroupResource>, after: set<GroupResource>, rules: seq<Rule>,
                       r: Rule)
    requires Canonical(operations, before, rules)
    requires RuleFor(operations, r) && r.resources != [] && Ascending(r.resources)
    requires forall k :: 0 <= k < |rules| ==> StringLess(rules[k].apiGroups[0], r.apiGroups[0])
    requires forall p :: p in after <==> p in before || (p.group == r.apiGroups[0] && p.resource in r.resources)
    ensures Canonical(operations, after, rules + [r])
  {
    var all := rules + [r];
    forall p | p in after
      ensures exists i :: 0 <= i < |all| && all[i].apiGroups[0] == p.group && p.resource in all[i].resources
    {
      if p in before {
        var i :| 0 <= i < |rules| && rules[i].apiGroups[0] == p.group && p.resource in rules[i].resources;
        assert all[i] == rules[i];
      } else {
        assert all[|rules|] == r;
      }
    }
  }

  /** No rule for a group without resources. */
  function RuleOf(operations: seq<string>, group: string, resources: seq<string>): seq<Rule>
  {
    if resources == [] then [] else [Rule(operations, [group], ["*"], resources)]
  }

  /** Asking about one more group. */
  lemma AskedMore(group: string, listed: seq<string>, asked: seq<GroupResource>, access: Access, p: GroupResource)
    ensures p in asked + PairsOf(group, listed) <==> p in asked || (p.group == group && p.resource in listed)
    ensures p in Granted(asked + PairsOf(group, listed), access) <==>
      p in Granted(asked, access) || (p.group == group && GrantedAt(group, listed, access, |asked|, p.resource))
  {
    var all, more := asked + PairsOf(group, listed), PairsOf(group, listed);
    if p.group == group && p.resource in listed {
      var i :| 0 <= i < |listed| && listed[i] == p.resource;
      assert more[i] == p && all[|asked| + i] == p;
    }
    if p.group == group && GrantedAt(group, listed, access, |asked|, p.resource) {
      var i :| 0 <= i < |listed| && listed[i] == p.resource && access(|asked| + i, GroupResource(group, p.resource));
      assert more[i] == p && all[|asked| + i] == p;
    }
    if p in Granted(asked, access) {
      var n :| 0 <= n < |asked| && asked[n] == p && access(n, p);
      assert all[n] == p;
    }
    if p in Granted(all, access) {
      var n :| 0 <= n < |all| && all[n] == p && access(n, p);
      if n >= |asked| {
        assert more[n - |asked|] == p && listed[n - |asked|] == p.resource;
      } else {
        assert asked[n] == p;
      }
    }
  }

  lemma AskedInOrder(group: string, listed: seq<string>, asked: seq<GroupResource>)
    requires Ordered(PairLess, asked) && Ascending(listed)
    requires forall p :: p in asked ==> StringLess(p.group, group)
    ensures Ordered(PairLess, asked + PairsOf(group, listed))
  {
  }

  lemma EarlierGroups(groups: seq<string>, i: nat, asked: seq<GroupResource>)
    requires Ascending(groups) && i < |groups| && forall p :: p in asked ==> p.group in groups[..i]
    ensures forall p :: p in asked ==> StringLess(p.group, groups[i])
  {
  }

  /** The round of one group. */
  lemma GroupCollected(operations: seq<string>, table: map<string, set<string>>, access: Access, groups: seq<string>,
                       i: nat, asked: seq<GroupResource>, rules: seq<Rule>, listed: seq<string>, resources: seq<string>)
    requires Ascending(groups) && i < |groups| && groups[i] in table
    requires Partial(operations, table, access, groups[..i], asked, rules)
    requires Ascending(listed) && (forall x :: x in listed <==> x in table[groups[i]]) && Ascending(resources)
    requires forall x :: x in resources <==> GrantedAt(groups[i], listed, access, |asked|, x)
    ensures Partial(operations, table, access, groups[..i + 1], asked + PairsOf(groups[i], listed),
              rules + RuleOf(operations, groups[i], resources))
  {
    var group, all := groups[i], asked + PairsOf(groups[i], listed);
    assert groups[..i + 1] == groups[..i] + [group];
    forall p
      ensures p in all <==> InTable(table, p) && p.group in groups[..i + 1]
      ensures p in Granted(all, access)
         <==> p in Granted(asked, access) || (p.group == group && p.resource in resources)
    {
      AskedMore(group, listed, asked, access, p);
    }
    EarlierGroups(groups, i, asked);
    AskedInOrder(group, listed, asked);
    if resources == [] {
      assert Granted(all, access) == Granted(asked, access) && rules + [] == rules;
    } else {
      forall k | 0 <= k < |rules|
        ensures StringLess(rules[k].apiGroups[0], group)
      {
        assert rules[k].resources[0] in rules[k].resources;
        assert GroupResource(rules[k].apiGroups[0], rules[k].resources[0]) in Granted(asked, access);
      }
      CanonicalGrows(operations, Granted(asked, access), Granted(all, access), rules,
                     Rule(operations, [group], ["*"], resources));
    }
  }

  /** One round of the loop over the groups. */
  method CollectGroup(operations: seq<string>, table: map<string, set<string>>, access: Access, groups: seq<string>,
                      i: nat, asked: seq<GroupResource>, before: seq<Rule>)
    returns (rules: seq<Rule>, more: seq<GroupResource>)
    requires Ascending(groups) && i < |groups| && groups[i] in table
    requires Partial(operations, table, access, groups[..i], asked, before)
    ensures Partial(operations, table, access, groups[..i + 1], more, rules)
  {
    var resources, listed := Resources(groups[i], table[groups[i]], access, |asked|);
    GroupCollected(operations, table, access, groups, i, asked, before, listed, resources);
    more := asked + PairsOf(groups[i], listed);
    if |resources| == 0 {
      assert before + [] == before;
      return before, more;
    }
    rules := before + [Rule(operations, [groups[i]], ["*"], resources)];
  }

  method Collect(operations: seq<string>, table: map<string, set<string>>, access: Access)
    returns (rules: seq<Rule>, asked: seq<GroupResource>)
    ensures Canonical(operations, Granted(asked, access), rules)
    ensures Ordered(PairLess, asked) && forall p :: p in asked <==> InTable(table, p)
  {
    rules, asked := [], [];
    var groups := List(table.Keys);
    for i := 0 to |groups|
      invariant Partial(operations, table, access, groups[..i], asked, rules)
    {
      assert groups[i] in groups;
      rules, asked := CollectGroup(operations, table, access, groups, i, asked, rules);
    }
    assert groups[..|groups|] == groups;
  }

  /** The sub-reconciler: an unmapped kind is an error, otherwise access is asked about every mapped resource once, and
      the rules are the canonical ones for what has been granted. */
  method WebhookRules(operations: seq<string>, gvks: seq<GVK>, mapper: map<GVK, GroupResource>, access: Access)
    returns (r: Outcome<seq<Rule>>, asked: seq<GroupResource>)
    ensures !r.Panic?
    ensures r.Ok? <==> forall k :: k in gvks ==> k in mapper
    ensures r.Ok? ==> AskedOnce(gvks, mapper, asked) && Canonical(operations, Granted(asked, access), r.value)
  {
    asked := [];
    var table := Dedup(gvks, mapper);
    if !table.Ok? {
      return Error, asked;
    }
    var rules;
    rules, asked := Collect(operations, table.value, access);
    r := Ok(rules);
  }

  /** Order and repetition of the observed kinds do not matter: for lists with the same kinds the same questions are
      asked, and if they are answered alike the rules are the same. */
  lemma RulesDeterministic(operations: seq<string>, a: seq<GVK>, b: seq<GVK>, mapper: map<GVK, GroupResource>,
                           access: Access,
                           asked: seq<GroupResource>, again: seq<GroupResource>, ra: seq<Rule>, rb: seq<Rule>)
    requires forall k :: k in a <==> k in b
    requires AskedOnce(a, mapper, asked) && Canonical(operations, Granted(asked, access), ra)
    requires AskedOnce(b, mapper, again) && Canonical(operations, Granted(again, access), rb)
    ensures asked == again && ra == rb
  {
    forall p, q
      ensures !(PairLess(p, q) && PairLess(q, p)) && (PairLess(p, q) || p == q || PairLess(q, p))
    {
      StringLessTotal(p.group, q.group);
      StringLessTotal(p.resource, q.resource);
    }
    OrderedUnique(PairLess, asked, again);
    CanonicalUnique(operations, Granted(asked, access), ra, rb);
  }

  /* ---- which kinds are observed ---- */

  /** The references of a service binding. */
  datatype References = References(
    workloadVersion: string,
    workloadKind: string,
    serviceVersion: string,
    serviceKind: string
  )

  function FirstSlash(s: string): (i: nat)
    ensures i <= |s| && '/' !in s[..i] && (i < |s| ==> s[i] == '/')
  {
    if s == [] || s[0] == '/' then 0
    else
      var i := 1 + FirstSlash(s[1..]);
      assert s[..i] == [s[0]] + s[1..][..i - 1];
      i
  }

  /** "group/version" or "version"; anything else keeps only the kind. */
  function FromAPIVersionAndKind(apiVersion: string, kind: string): GVK
  {
    var i := FirstSlash(apiVersion);
    if apiVersion == "/" then GVK("", "", kind)
    else if i == |apiVersion| then GVK("", apiVersion, kind)
    else if '/' in apiVersion[i + 1..] then GVK("", "", kind)
    else GVK(apiVersion[..i], apiVersion[i + 1..], kind)
  }

  lemma {:induction false} FirstSlashAt(s: string, n: nat)
    requires n <= |s| && '/' !in s[..n] && (n < |s| ==> s[n] == '/')
    ensures FirstSlash(s) == n
    decreases n
  {
    if n > 0 {
      assert s[..n][0] == s[0] && s[..n][1..] == s[1..][..n - 1];
      FirstSlashAt(s[1..], n - 1);
    }
  }

  /** A group and a version, joined by a slash, are told apart again; a version alone has the group ""; with more than
      one slash only the kind is kept. */
  lemma VersionsParse(group: string, version: string, kind: string)
    requires '/' !in group
    ensures '/' !in version ==> FromAPIVersionAndKind(group + "/" + version, kind) == GVK(group, version, kind)
    ensures '/' in version ==> FromAPIVersionAndKind(group + "/" + version, kind) == GVK("", "", kind)
    ensures FromAPIVersionAndKind(group, kind) == GVK("", group, kind)
  {
    var s := group + "/" + version;
    assert s[..|group|] == group && s[|group| + 1..] == version && s[|group|] == '/';
    FirstSlashAt(s, |group|);
    assert group[..|group|] == group;
    FirstSlashAt(group, |group|);
    assert "/"[0] == '/';
  }

  function WorkloadKind(b: References): GVK
  {
    FromAPIVersionAndKind(b.workloadVersion, b.workloadKind)
  }

  function ServiceKind(b: References): GVK
  {
    FromAPIVersionAndKind(b.serviceVersion, b.serviceKind)
  }

  /** What a binding refers to by group and version. */
  lemma KindsReferred(b: References, group: string, version: string)
    requires '/' !in group && '/' !in version
    ensures b.workloadVersion == group + "/" + version ==> WorkloadKind(b) == GVK(group, version, b.workloadKind)
    ensures b.serviceVersion == group + "/" + version ==> ServiceKind(b) == GVK(group, version, b.serviceKind)
  {
    VersionsParse(group, version, b.workloadKind);
    VersionsParse(group, version, b.serviceKind);
  }

  predicate DirectBinding(k: GVK)
  {
    k.kind == "Secret" && (k.group == "" || k.group == "core")
  }

  method InterceptGVKs(bindings: seq<References>, gvks: seq<GVK>) returns (r: seq<GVK>)
    ensures forall k :: k in r <==> k in gvks || exists b :: b in bindings && k == WorkloadKind(b)
  {
    r := gvks;
    for i := 0 to |bindings|
      invariant forall k :: k in r <==> k in gvks || exists b :: b in bindings[..i] && k == WorkloadKind(b)
    {
      assert bindings[..i + 1] == bindings[..i] + [bindings[i]];
      r := r + [WorkloadKind(bindings[i])];
    }
    assert bindings[..|bindings|] == bindings;
  }

  method TriggerGVKs(bindings: seq<References>, gvks: seq<GVK>) returns (r: seq<GVK>)
    ensures forall k :: k in r <==>
              k in gvks || exists b :: b in bindings && k == ServiceKind(b) && !DirectBinding(ServiceKind(b))
    ensures forall k :: k in r && k.kind == "Secret" && k.group in {"", "core"} ==> k in gvks
    ensures forall b :: b in bindings && !(b.serviceKind == "Secret" && ServiceKind(b).group in {"", "core"}) ==>
              ServiceKind(b) in r
  {
    r := gvks;
    for i := 0 to |bindings|
      invariant forall k :: k in r <==>
                  k in gvks || exists b :: b in bindings[..i] && k == ServiceKind(b) && !DirectBinding(ServiceKind(b))
    {
      assert bindings[..i + 1] == bindings[..i] + [bindings[i]];
      var gvk := ServiceKind(bindings[i]);
      if DirectBinding(gvk) {
        continue;
      }
      r := r + [gvk];
    }
    assert bindings[..|bindings|] == bindings;
  }

  /** Everything the trigger webhook must see: the workloads, and the services that are not plain secrets. */
  ghost predicate Observed(bindings: seq<References>, k: GVK)
  {
    exists b :: b in bindings && (k == WorkloadKind(b) || (k == ServiceKind(b) && !DirectBinding(k)))
  }

  /** A secret of the core group is not observed as a service, so only for a workload of that kind. */
  lemma SecretsAreNotServices(bindings: seq<References>, k: GVK)
    requires Observed(bindings, k) && k.kind == "Secret" && k.group in {"", "core"}
    ensures exists b :: b in bindings && k == WorkloadKind(b)
  {
  }

  /** The reference to a secret as it is written. */
  lemma DirectReference(b: References)
    requires b.serviceVersion == "v1" && b.serviceKind == "Secret"
    ensures ServiceKind(b) == GVK("", "v1", "Secret") && DirectBinding(ServiceKind(b))
  {
    VersionsParse("v1", "", "Secret");
  }

  /** The three sub-reconcilers of the trigger in a row: the rules cover what access is granted for among the resources
      that the bindings observe, whatever order the bindings are listed in. */
  method TriggerRules(operations: seq<string>, bindings: seq<References>, mapper: map<GVK, GroupResource>,
                      access: Access)
    returns (r: Outcome<seq<Rule>>, ghost gvks: seq<GVK>, asked: seq<GroupResource>)
    ensures !r.Panic?
    ensures forall k :: k in gvks <==> Observed(bindings, k)
    ensures r.Ok? <==> forall k :: Observed(bindings, k) ==> k in mapper
    ensures r.Ok? ==> AskedOnce(gvks, mapper, asked) && Canonical(operations, Granted(asked, access), r.value)
  {
    var triggered := TriggerGVKs(bindings, []);
    var observed := InterceptGVKs(bindings, triggered);
    gvks := observed;
    r, asked := WebhookRules(operations, observed, mapper, access);
  }
}
