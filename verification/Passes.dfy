/** The pass of a commit as it runs: loops over maps that yield their entries in any order. */
module Passes {
  import opened Common
  import opened Trees
  import opened Propagation
  import opened Orders

  // ------------------------------------------------ one leaf and one tree

  /** Applies the updates of one leaf one after the other. */
  method UpdateLeaf(leaf: Leaf, us: seq<Update>) returns (r: Result<Leaf, Error>)
    ensures r == ApplyAll(leaf, us)
  {
    var current := leaf;
    for i := 0 to |us|
      invariant ApplyAll(leaf, us) == ApplyAll(current, us[i..])
    {
      var next := SetRoot(us[i].kind, current, us[i].root);
      if next.Err? {
        return next;
      }
      assert us[i..][1..] == us[i + 1..];
      current := next.value;
    }
    return Ok(current);
  }

  /** Rewrites the leaves that have pending updates, in the order a map yields them;
      each write stores the nodes of a new root. */
  method UpdateLeaves(r: Root, d: Dir, byKey: map<Bytes, seq<Update>>, ghost ups: map<Config, Root>)
    returns (ok: bool, r': Root, d': Dir)
    requires Collected(byKey, ups) && Stored(d, r)
    ensures ok <==> HaveLeaves(r.leaves, ups)
    ensures ok ==> r' == LevelRoot(r, byKey)
    ensures ok ==> d' == d.(roots := d'.roots) && d.roots <= d'.roots && Stored(d', r')
  {
    hide Fits, ApplyAll;
    r', d' := r, d;
    var todo := byKey.Keys;
    while todo != {}
      invariant todo <= byKey.Keys
      invariant r'.leaves.Keys == r.leaves.Keys
      invariant forall k :: k in r.leaves ==>
                  r'.leaves[k] == if k in byKey && k !in todo then Updated(r.leaves[k], byKey[k]) else r.leaves[k]
      invariant forall c :: c in ups && c.key !in todo ==> c.key in r.leaves && Fits(c.kind, r.leaves[c.key])
      invariant d' == d.(roots := d'.roots) && d.roots <= d'.roots && Stored(d', r')
    {
      var key :| key in todo;
      var us := byKey[key];
      assert us[0] in us && Config(us[0].kind, key) in ups;
      if key !in r'.leaves {
        return false, r, d;
      }
      LeafUpdates(r.leaves[key], key, ups, us);
      var leaf := UpdateLeaf(r'.leaves[key], us);
      if leaf.Err? {
        return false, r, d;
      }
      r' := Root(r'.leaves[key := leaf.value]);
      d' := d'.(roots := d'.roots + {r'});
      todo := todo - {key};
    }
    ok := true;
    assert r'.leaves == LevelRoot(r, byKey).leaves;
  }

  // ------------------------------------------------ the subtrees of a tree

  /** The changed subtrees among some of the open ones. */
  ghost function UpdatesOf(n: Open, cs: set<Config>): map<Config, Root> {
    map c | c in cs && c in n.subs && Propagate(n.subs[c]).Changed? :: Propagate(n.subs[c]).root
  }

  lemma UpdatesOfMore(n: Open, cs: set<Config>, c: Config)
    requires c in n.subs && c !in cs
    ensures UpdatesOf(n, cs + {c}) ==
            match Propagate(n.subs[c]) { case Changed(r) => UpdatesOf(n, cs)[c := r] case _ => UpdatesOf(n, cs) }
  {
  }

  /** The database after some of the open subtrees were propagated. */
  ghost predicate Swept(n: Open, d: Dir, d': Dir, cs: set<Config>) {
    && d' == d.(kids := d'.kids)
    && d'.kids.Keys == d.kids.Keys
    && (forall c :: c in d.kids && c !in cs ==> d'.kids[c] == d.kids[c])
    && (DeepAgree(n) ==> forall c :: c in cs && c in n.subs && c in d.kids ==> Grown(d.kids[c], d'.kids[c], n.subs[c]))
  }

  /** Roots that some of the changed subtrees can end with, and their lists by leaf key. */
  ghost predicate Taken(n: Open, cs: set<Config>, ups: map<Config, Root>, byKey: map<Bytes, seq<Update>>) {
    && ups.Keys == UpdatesOf(n, cs).Keys
    && (forall c :: c in n.subs && c in ups ==> PassTo(n.subs[c], ups[c]))
    && InSomeOrder(byKey, ups)
    && (DeepAgree(n) ==> ups == UpdatesOf(n, cs))
  }

  lemma NoneTaken(n: Open, d: Dir)
    ensures Taken(n, {}, map[], map[]) && Swept(n, d, d, {})
  {
    assert UpdatesOf(n, {}) == map[];
  }

  lemma AllTaken(n: Open)
    ensures UpdatesOf(n, n.subs.Keys) == Updates(n)
  {
  }

  function Enlisted(byKey: map<Bytes, seq<Update>>, c: Config, r: Root): map<Bytes, seq<Update>> {
    byKey[c.key := (if c.key in byKey then byKey[c.key] else []) + [Update(c.kind, r)]]
  }

  lemma EnlistedUpdate(byKey: map<Bytes, seq<Update>>, ups: map<Config, Root>, c: Config, r: Root)
    requires InSomeOrder(byKey, ups) && c !in ups
    ensures InSomeOrder(Enlisted(byKey, c, r), ups[c := r])
  {
    var us := Enlisted(byKey, c, r)[c.key];
    var after := ups[c := r];
    forall u ensures u in us <==> Config(u.kind, c.key) in after && after[Config(u.kind, c.key)] == u.root {
    }
    forall key | key in byKey && key != c.key ensures Gathered(byKey[key], key, after) {
      assert forall u: Update :: Config(u.kind, key) != c;
    }
    if c.key in byKey {
      assert Update(c.kind, r) !in byKey[c.key];
    }
  }

  /** One more subtree, with the plan its own pass came back with. */
  lemma OneMoreTaken(n: Open, cs: set<Config>, ups: map<Config, Root>, byKey: map<Bytes, seq<Update>>, c: Config, plan: Plan)
    requires Taken(n, cs, ups, byKey) && c in n.subs && c !in cs
    requires (plan.Changed? <==> Propagate(n.subs[c]).Changed?) && (plan.Changed? ==> PassTo(n.subs[c], plan.root))
    requires DeepAgree(n) ==> plan == Propagate(n.subs[c])
    ensures if plan.Changed? then Taken(n, cs + {c}, ups[c := plan.root], Enlisted(byKey, c, plan.root)) else Taken(n, cs + {c}, ups, byKey)
  {
    hide InSomeOrder, PassTo, DeepAgree, Propagate, Enlisted;
    UpdatesOfMore(n, cs, c);
    assert c !in UpdatesOf(n, cs);
    if plan.Changed? {
      EnlistedUpdate(byKey, ups, c, plan.root);
    }
  }

  lemma SweptMore(n: Open, d: Dir, d': Dir, cs: set<Config>, c: Config, kid: Dir)
    requires Swept(n, d, d', cs) && c in n.subs && c !in cs && c in d.kids
    requires DeepAgree(n) ==> Grown(d.kids[c], kid, n.subs[c])
    ensures Swept(n, d, d'.(kids := d'.kids[c := kid]), cs + {c})
  {
    hide DeepAgree, Grown;
  }

  lemma SubAgrees(n: Open, c: Config)
    requires c in n.subs
    ensures DeepAgree(n) ==> DeepAgree(n.subs[c])
  {
  }

  /** Propagates every open subtree, in the order a map yields them, and gathers the
      updates of the parent leaves by key. */
  method GatherUpdates(n: Open, d: Dir) returns (ok: bool, byKey: map<Bytes, seq<Update>>, d': Dir, ghost ups: map<Config, Root>)
    requires Backed(d, n)
    ensures ok <==> forall c :: c in n.subs ==> !Propagate(n.subs[c]).Failed?
    ensures ok ==> Taken(n, n.subs.Keys, ups, byKey) && Swept(n, d, d', n.subs.Keys)
    decreases n, 0
  {
    hide Taken, Swept, Enlisted, Propagate, DeepAgree, PassTo, Grown;
    NoneTaken(n, d);
    byKey, d', ups := map[], d, map[];
    var todo := n.subs.Keys;
    ghost var done: set<Config> := {};
    while todo != {}
      invariant done + todo == n.subs.Keys && done !! todo
      invariant forall c :: c in done ==> !Propagate(n.subs[c]).Failed?
      invariant Taken(n, done, ups, byKey) && Swept(n, d, d', done)
    {
      var c :| c in todo;
      var plan, kid := PropagateRoot(n.subs[c], d.kids[c]);
      if plan.Failed? {
        return false, byKey, d, ups;
      }
      SubAgrees(n, c);
      SweptMore(n, d, d', done, c, kid);
      OneMoreTaken(n, done, ups, byKey, c, plan);
      d' := d'.(kids := d'.kids[c := kid]);
      if plan.Changed? {
        byKey, ups := Enlisted(byKey, c, plan.root), ups[c := plan.root];
      }
      todo, done := todo - {c}, done + {c};
    }
    ok := true;
  }

  lemma CollectedEmpty(byKey: map<Bytes, seq<Update>>, ups: map<Config, Root>)
    requires Collected(byKey, ups)
    ensures byKey == map[] <==> ups == map[]
  {
    if byKey != map[] {
      var key :| key in byKey;
      assert byKey[key][0] in byKey[key];
    }
  }

  lemma LonePass(n: Open)
    requires n.subs == map[]
    ensures Updates(n) == map[] && PassTo(n, n.root)
    ensures Propagate(n) == if n.dirty then Changed(n.root) else Clean
    ensures DeepAgree(n)
  {
    assert Updates(n) == map[];
    assert RewriteLeaves(n.root, map[]).leaves == n.root.leaves;
    assert LevelRoot(n.root, map[]).leaves == n.root.leaves;
    assert PassBy(n, map[], map[], n.root);
  }

  /** What the updates that were taken mean for the tree. */
  lemma TakenAll(n: Open, ups: map<Config, Root>, byKey: map<Bytes, seq<Update>>)
    requires Taken(n, n.subs.Keys, ups, byKey)
    ensures Collected(byKey, ups)
    ensures byKey == map[] <==> Updates(n) == map[]
    ensures HaveLeaves(n.root.leaves, ups) <==> HaveLeaves(n.root.leaves, Updates(n))
    ensures PassTo(n, LevelRoot(n.root, byKey))
    ensures DeepAgree(n) && HaveLeaves(n.root.leaves, ups) ==> LevelRoot(n.root, byKey) == RewriteLeaves(n.root, Updates(n))
  {
    hide LevelRoot, RewriteLeaves, PassTo, HaveLeaves, Updates, UpdatesOf, Collected, Agree;
    AllTaken(n);
    CollectedEmpty(byKey, ups);
    SameKeys(n.root.leaves, ups, Updates(n));
    PassByTo(n, ups, byKey);
    if DeepAgree(n) && HaveLeaves(n.root.leaves, ups) {
      AgreedLevel(n.root, ups, byKey);
    }
  }

  lemma SameKeys(leaves: map<Bytes, Leaf>, ups: map<Config, Root>, ups': map<Config, Root>)
    requires ups.Keys == ups'.Keys
    ensures HaveLeaves(leaves, ups) <==> HaveLeaves(leaves, ups')
    ensures ups == map[] <==> ups' == map[]
  {
    assert forall c :: c in ups <==> c in ups';
  }

  /** The definition, once the subtrees are known not to fail. */
  lemma PropagateIs(n: Open)
    ensures (exists c :: c in n.subs && Propagate(n.subs[c]).Failed?) ==> Propagate(n).Failed?
    ensures (forall c :: c in n.subs ==> !Propagate(n.subs[c]).Failed?) ==>
              Propagate(n) ==
              if Updates(n) == map[] && !n.dirty then Clean
              else if !HaveLeaves(n.root.leaves, Updates(n)) then Failed
              else Changed(RewriteLeaves(n.root, Updates(n)))
  {
  }

  lemma SweptGrows(n: Open, d: Dir, d': Dir, roots: set<Root>)
    requires Backed(d, n) && DeepAgree(n) && Swept(n, d, d', n.subs.Keys) && d.roots <= roots
    requires Final(n) == EMPTY_ROOT || Final(n) in roots
    ensures Grown(d, d'.(roots := roots), n)
  {
    hide DeepAgree, Propagate;
  }

  /** The depth-first pass: whatever order its maps yield, it fails or finds nothing to do
      when the definition says so, ends with a root that some order gives, and, if changed
      subtrees agree, with the one root there is; then the database only gains the nodes of
      open trees. */
  method PropagateRoot(n: Open, d: Dir) returns (plan: Plan, d': Dir)
    requires Backed(d, n)
    ensures plan.Failed? <==> Propagate(n).Failed?
    ensures plan.Changed? <==> Propagate(n).Changed?
    ensures plan.Changed? ==> PassTo(n, plan.root)
    ensures DeepAgree(n) ==> plan == Propagate(n) && (!plan.Failed? ==> Grown(d, d', n))
    decreases n, 1
  {
    hide LevelRoot, RewriteLeaves, PassTo, HaveLeaves, Propagate, Updates, DeepAgree, Grown, Swept, Taken;
    PropagateIs(n);
    if n.subs == map[] {
      LonePass(n);
      LoneGrows(n, d);
      return (if n.dirty then Changed(n.root) else Clean), d;
    }
    var ok, byKey, d1, ups := GatherUpdates(n, d);
    if !ok {
      return Failed, d;
    }
    TakenAll(n, ups, byKey);
    if byKey == map[] && !n.dirty {
      if DeepAgree(n) {
        SweptGrows(n, d, d1, d.roots);
      }
      SweptRoots(n, d, d1);
      return Clean, d1;
    }
    SweptRoots(n, d, d1);
    var done, r, d2 := UpdateLeaves(n.root, d1, byKey, ups);
    if !done {
      return Failed, d;
    }
    if DeepAgree(n) {
      SweptGrows(n, d, d1, d2.roots);
    }
    return Changed(r), d2;
  }

  lemma SweptRoots(n: Open, d: Dir, d': Dir)
    requires Swept(n, d, d', n.subs.Keys)
    ensures d'.roots == d.roots && d' == d'.(roots := d.roots)
  {
  }

  lemma LoneGrows(n: Open, d: Dir)
    requires n.subs == map[] && Backed(d, n)
    ensures Grown(d, d, n)
  {
    LonePass(n);
  }
}
