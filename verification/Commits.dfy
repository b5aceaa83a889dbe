/** Committing preserves meaning: the view opened at the new main root reads what the
    open transaction read, at every depth. */
module Commits {
  import opened Common
  import opened Trees
  import opened Propagation

  // ------------------------------------------------ reading an open transaction

  /** The subtree an open tree yields: the open one, or else the one its parent leaf
      points to, which opens empty when it was never created. */
  function Child(d: Dir, n: Open, c: Config): Result<Open, Error> {
    if c in n.subs then Ok(n.subs[c])
    else match ChildRoot(n.root, c)
      case Err(e) => Err(e)
      case Ok(r) => if Stored(Sub(d, c), r) then Ok(Open(r, false, map[])) else Err(RootNotStored)
  }

  function Sub(d: Dir, c: Config): Dir {
    if c in d.kids then d.kids[c] else EMPTY_DIR
  }

  /** The nested tree an open transaction yields for a path. */
  function OpenTree(d: Dir, n: Open, path: seq<Config>): Result<Open, Error>
    decreases |path|
  {
    if path == [] then Ok(n)
    else match Child(d, n, path[0])
      case Err(e) => Err(e)
      case Ok(m) => OpenTree(Sub(d, path[0]), m, path[1..])
  }

  /** The leaf an open transaction yields for a path and a key. */
  function OpenGet(d: Dir, n: Open, path: seq<Config>, key: Bytes): Result<Leaf, Error> {
    match OpenTree(d, n, path)
    case Err(e) => Err(e)
    case Ok(m) => Lookup(m.root, key)
  }

  // ------------------------------------------------ when commit preserves reads

  /** Every open subtree that propagation leaves alone still has its root in its parent
      leaf: no direct write to the parent replaced it. */
  predicate Coherent(n: Open)
    decreases n
  {
    forall c :: c in n.subs ==>
      && (Propagate(n.subs[c]).Clean? ==> ChildRoot(n.root, c) == Ok(n.subs[c].root))
      && Coherent(n.subs[c])
  }

  /** The path does not read, under one kind, a root that an open tree of another kind
      keeps in the same field. */
  predicate Unambiguous(n: Open, path: seq<Config>)
    decreases |path|
  {
    path == [] ||
    (&& Separate(n.subs.Keys + {path[0]})
     && (path[0] in n.subs ==> Unambiguous(n.subs[path[0]], path[1..])))
  }

  function FinalOf(r: Result<Open, Error>): Result<Root, Error> {
    match r
    case Err(e) => Err(e)
    case Ok(n) => Ok(Final(n))
  }

  lemma NewRootOf(ups: map<Config, Root>, c: Config)
    requires Separate(ups.Keys + {c})
    ensures NewRoot(ups, c.key, FieldOf(c.kind)) == New(ups, c)
  {
    forall k: Kind | FieldOf(k) == FieldOf(c.kind) && Config(k, c.key) in ups ensures Config(k, c.key) == c {
    }
    assert c == Config(c.kind, c.key);
  }

  lemma RewrittenChild(r: Root, ups: map<Config, Root>, c: Config)
    requires HaveLeaves(r.leaves, ups) && Separate(ups.Keys + {c})
    ensures ChildRoot(RewriteLeaves(r, ups), c) == if c in ups then Ok(ups[c]) else ChildRoot(r, c)
  {
    if c.key in r.leaves {
      RewrittenRoot(r.leaves[c.key], c.key, ups, c.kind);
      NewRootOf(ups, c);
    }
  }

  /** The child root in the final parent leaf: that of the open subtree if it changed,
      and the old one otherwise. */
  lemma FinalChild(n: Open, c: Config)
    requires !Propagate(n).Failed?
    requires Separate(n.subs.Keys + {c})
    ensures ChildRoot(Final(n), c) ==
            if c in n.subs && Propagate(n.subs[c]).Changed? then Ok(Final(n.subs[c])) else ChildRoot(n.root, c)
  {
    var ups := Updates(n);
    UpdatesKeys(n);
    if Propagate(n).Changed? {
      assert ups.Keys + {c} <= n.subs.Keys + {c};
      RewrittenChild(n.root, ups, c);
    }
  }

  lemma UpdatesKeys(n: Open)
    ensures forall c :: c in Updates(n) <==> c in n.subs && Propagate(n.subs[c]).Changed?
    ensures forall c :: c in Updates(n) ==> Updates(n)[c] == Final(n.subs[c])
    ensures Propagate(n).Clean? ==> Updates(n) == map[]
    ensures Propagate(n).Changed? ==> Final(n) == RewriteLeaves(n.root, Updates(n)) && HaveLeaves(n.root.leaves, Updates(n))
  {
  }

  /** A tree nobody opened is read the same way from both sides. */
  lemma {:induction false} UnopenedReads(d: Dir, r: Root, path: seq<Config>)
    requires Created(d, path)
    ensures ViewTree(d, r, path) == FinalOf(OpenTree(d, Open(r, false, map[]), path))
    decreases |path|
  {
    var n := Open(r, false, map[]);
    assert Updates(n) == map[];
    if path != [] {
      var c := path[0];
      var child := ChildRoot(r, c);
      if child.Ok? && Stored(d.kids[c], child.value) {
        UnopenedReads(d.kids[c], child.value, path[1..]);
      }
    }
  }

  /** Commit preserves meaning: after a successful propagation the view at the final
      root opens, along every created path, exactly the tree that the transaction had
      open or would have opened there, with its final root; errors included. */
  lemma {:induction false} CommitPreservesReads(d: Dir, d': Dir, n: Open, path: seq<Config>)
    requires !Propagate(n).Failed? && Grown(d, d', n) && Backed(d, n)
    requires Coherent(n) && Unambiguous(n, path)
    requires Created(d', path)
    ensures ViewTree(d', Final(n), path) == FinalOf(OpenTree(d, n, path))
    decreases |path|
  {
    if path != [] {
      var c := path[0];
      FinalChild(n, c);
      if c in n.subs {
        CommitPreservesReads(d.kids[c], d'.kids[c], n.subs[c], path[1..]);
      } else if ChildRoot(n.root, c).Ok? {
        var r := ChildRoot(n.root, c).value;
        if Stored(d.kids[c], r) {
          UnopenedReads(d.kids[c], r, path[1..]);
        }
      }
    }
  }

  /** The same, leaf by leaf: a read after commit returns the leaf of the open
      transaction up to the child roots embedded in it, or the same error. */
  lemma CommitPreservesLeaves(d: Dir, d': Dir, n: Open, path: seq<Config>, key: Bytes)
    requires !Propagate(n).Failed? && Grown(d, d', n) && Backed(d, n)
    requires Coherent(n) && Unambiguous(n, path)
    requires Created(d', path)
    ensures var before, after := OpenGet(d, n, path, key), ViewGet(d', Final(n), path, key);
            if before.Ok? then after.Ok? && SameData(before.value, after.value) else after == before
  {
    CommitPreservesReads(d, d', n, path);
    var t := OpenTree(d, n, path);
    if t.Ok? {
      FinalLeaf(t.value, key);
    }
  }

  lemma FinalLeaf(n: Open, key: Bytes)
    ensures var before, after := Lookup(n.root, key), Lookup(Final(n), key);
            if before.Ok? then after.Ok? && SameData(before.value, after.value) else after == before
  {
    UpdatesKeys(n);
    if key in n.root.leaves && Propagate(n).Changed? {
      RewrittenRoot(n.root.leaves[key], key, Updates(n), Main);
    }
  }

  lemma {:induction false} UncreatedUnopened(d: Dir, r: Root, path: seq<Config>)
    requires !Created(d, path)
    ensures var before, after := OpenTree(d, Open(r, false, map[]), path), ViewTree(d, r, path);
            after == Err(EmptyTree) || (before.Err? && after == Err(before.error))
    decreases |path|
  {
    var c := path[0];
    if c in d.kids && ChildRoot(r, c).Ok? && Stored(d.kids[c], ChildRoot(r, c).value) {
      UncreatedUnopened(d.kids[c], ChildRoot(r, c).value, path[1..]);
    }
  }

  /** Along a path with a tree nobody ever opened for update, the view stops with the
      empty-tree error, unless the transaction itself failed before. */
  lemma {:induction false} UncreatedReads(d: Dir, d': Dir, n: Open, path: seq<Config>)
    requires !Propagate(n).Failed? && Grown(d, d', n) && Backed(d, n)
    requires Coherent(n) && Unambiguous(n, path)
    requires !Created(d', path)
    ensures var before, after := OpenTree(d, n, path), ViewTree(d', Final(n), path);
            after == Err(EmptyTree) || (before.Err? && after == Err(before.error))
    decreases |path|
  {
    hide RewriteLeaves, HaveLeaves, Separate;
    var c := path[0];
    FinalChild(n, c);
    if c in n.subs {
      UncreatedReads(d.kids[c], d'.kids[c], n.subs[c], path[1..]);
    } else if c in d.kids && ChildRoot(n.root, c).Ok? && Stored(d.kids[c], ChildRoot(n.root, c).value) {
      UncreatedUnopened(d.kids[c], ChildRoot(n.root, c).value, path[1..]);
    }
  }

  /** After commit every tree that was open has the root its parent leaf yields. */
  lemma OpenTreesLinked(n: Open, c: Config)
    requires !Propagate(n).Failed? && Coherent(n) && Separate(n.subs.Keys)
    requires c in n.subs
    ensures ChildRoot(Final(n), c) == Ok(Final(n.subs[c]))
  {
    hide Separate, RewriteLeaves, HaveLeaves;
    assert n.subs.Keys + {c} == n.subs.Keys;
    FinalChild(n, c);
  }

  /** Every created and unambiguous path reads back. */
  ghost predicate ReadsBack(d: Dir, d': Dir, n: Open) {
    forall path: seq<Config> :: Created(d', path) && Unambiguous(n, path)
      ==> ViewTree(d', Final(n), path) == FinalOf(OpenTree(d, n, path))
  }

  /** Coherence is exactly what commit needs: if a direct write has replaced the root of
      an open but unchanged subtree in its parent leaf, then that subtree reads
      differently after commit. */
  lemma {:induction false} CommitPreservesReadsIffCoherent(d: Dir, d': Dir, n: Open)
    requires !Propagate(n).Failed? && Grown(d, d', n) && Backed(d, n) && DeepSeparate(n)
    ensures Coherent(n) <==> ReadsBack(d, d', n)
    decreases n
  {
    hide ReadsBack, Separate;
    if Coherent(n) {
      CoherentReadsBack(d, d', n);
    }
    if ReadsBack(d, d', n) {
      forall c | c in n.subs
        ensures Propagate(n.subs[c]).Clean? ==> ChildRoot(n.root, c) == Ok(n.subs[c].root)
        ensures Coherent(n.subs[c])
      {
        CleanReadsBack(d, d', n, c);
        ReadsBackBelow(d, d', n, c);
        CommitPreservesReadsIffCoherent(d.kids[c], d'.kids[c], n.subs[c]);
      }
    }
  }

  lemma CoherentReadsBack(d: Dir, d': Dir, n: Open)
    requires !Propagate(n).Failed? && Grown(d, d', n) && Backed(d, n) && Coherent(n)
    ensures ReadsBack(d, d', n)
  {
    forall path: seq<Config> | Created(d', path) && Unambiguous(n, path)
      ensures ViewTree(d', Final(n), path) == FinalOf(OpenTree(d, n, path))
    {
      hide Grown, Backed, Coherent, Propagate, Final, FinalOf, ViewTree, OpenTree, Created, Unambiguous;
      CommitPreservesReads(d, d', n, path);
    }
  }

  lemma CleanReadsBack(d: Dir, d': Dir, n: Open, c: Config)
    requires !Propagate(n).Failed? && Grown(d, d', n) && Backed(d, n) && Separate(n.subs.Keys)
    requires ReadsBack(d, d', n) && c in n.subs
    ensures Propagate(n.subs[c]).Clean? ==> ChildRoot(n.root, c) == Ok(n.subs[c].root)
  {
    hide Grown, Backed, Propagate, Separate, ReadsBack, ChildRoot;
    assert n.subs.Keys + {c} == n.subs.Keys;
    FinalChild(n, c);
    ReadsBackChild(d, d', n, c);
  }

  /** What reading below an open subtree means, one level up. */
  lemma ReadBelow(d: Dir, d': Dir, n: Open, c: Config, path: seq<Config>)
    requires c in n.subs && c in d.kids && c in d'.kids && Separate(n.subs.Keys)
    ensures Created(d', [c] + path) <==> Created(d'.kids[c], path)
    ensures Unambiguous(n, [c] + path) <==> Unambiguous(n.subs[c], path)
    ensures OpenTree(d, n, [c] + path) == OpenTree(d.kids[c], n.subs[c], path)
    ensures forall r: Root, x: Root :: ChildRoot(r, c) == Ok(x) && Stored(d'.kids[c], x)
              ==> ViewTree(d', r, [c] + path) == ViewTree(d'.kids[c], x, path)
  {
    assert ([c] + path)[1..] == path;
    assert n.subs.Keys + {c} == n.subs.Keys;
  }

  lemma ReadsBackChild(d: Dir, d': Dir, n: Open, c: Config)
    requires !Propagate(n).Failed? && Grown(d, d', n) && Backed(d, n) && Separate(n.subs.Keys)
    requires ReadsBack(d, d', n) && c in n.subs
    ensures ChildRoot(Final(n), c) == Ok(Final(n.subs[c]))
  {
    ReadBelow(d, d', n, c, []);
    assert [c] + [] == [c];
    assert ViewTree(d', Final(n), [c]) == Ok(Final(n.subs[c]));
    assert ViewTree(d', Final(n), [c]).Ok? ==> ViewTree(d'.kids[c], ChildRoot(Final(n), c).value, [c][1..]) == ChildRoot(Final(n), c);
  }

  lemma ReadsBackBelow(d: Dir, d': Dir, n: Open, c: Config)
    requires !Propagate(n).Failed? && Grown(d, d', n) && Backed(d, n) && Separate(n.subs.Keys)
    requires ReadsBack(d, d', n) && c in n.subs
    ensures ReadsBack(d.kids[c], d'.kids[c], n.subs[c])
  {
    ReadsBackChild(d, d', n, c);
    forall path: seq<Config> | Created(d'.kids[c], path) && Unambiguous(n.subs[c], path)
      ensures ViewTree(d'.kids[c], Final(n.subs[c]), path) == FinalOf(OpenTree(d.kids[c], n.subs[c], path))
    {
      ReadsBackPath(d, d', n, c, path);
    }
  }

  lemma ReadsBackPath(d: Dir, d': Dir, n: Open, c: Config, path: seq<Config>)
    requires c in n.subs && c in d.kids && c in d'.kids && Separate(n.subs.Keys)
    requires ReadsBack(d, d', n)
    requires ChildRoot(Final(n), c) == Ok(Final(n.subs[c])) && Stored(d'.kids[c], Final(n.subs[c]))
    requires Created(d'.kids[c], path) && Unambiguous(n.subs[c], path)
    ensures ViewTree(d'.kids[c], Final(n.subs[c]), path) == FinalOf(OpenTree(d.kids[c], n.subs[c], path))
  {
    ReadBelow(d, d', n, c, path);
    assert ViewTree(d', Final(n), [c] + path) == FinalOf(OpenTree(d, n, [c] + path));
  }
}
