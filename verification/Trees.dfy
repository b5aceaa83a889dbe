/** The Merkle trees of the state database and their read-only views.

    A root is a symbolic hash: it determines the leaves it summarises and nothing
    else, so two roots are equal exactly when the leaves below them are.  A leaf of
    a parent tree may embed the roots of the trees that hang from it. */
module Trees {
  import opened Common

  datatype Root = Root(leaves: map<Bytes, Leaf>)

  /** A leaf value, as far as the functions that read and write child roots can
      tell: opaque bytes, a leaf that is itself a root, or an encoded process with
      the roots of its vote, census and nullifier trees.  A missing root is a field
      whose length is not that of a hash. */
  datatype Leaf =
    | Raw(data: Bytes)
    | RootLeaf(root: Root)
    | ProcessLeaf(process: Bytes, votes: Option<Root>, census: Option<Root>, nullifiers: Option<Root>)

  const EMPTY_ROOT: Root := Root(map[])

  /** The kinds of trees: the singletons under the main tree and the four trees that
      hang from a process leaf. */
  datatype Kind = Main | Votes | Census | CensusPoseidon | Nullifiers

  /** A tree configuration: its kind, and the key of the parent leaf it hangs from.
      Together they are the database prefix of the tree. */
  datatype Config = Config(kind: Kind, key: Bytes)

  datatype Error = KeyNotFound | KeyExists | ChildRootUnknown | EmptyTree | RootNotStored

  /** The part of the parent leaf where a tree keeps its root.  The two kinds of
      rolling census share one. */
  datatype Field = WholeLeaf | VotesRoot | CensusRoot | NullifiersRoot

  function FieldOf(kind: Kind): Field {
    match kind
    case Main => WholeLeaf
    case Votes => VotesRoot
    case Census => CensusRoot
    case CensusPoseidon => CensusRoot
    case Nullifiers => NullifiersRoot
  }

  /** The child root a leaf yields for a kind of tree. */
  function GetRoot(kind: Kind, leaf: Leaf): Result<Root, Error> {
    var root :=
      match leaf
      case Raw(_) => None
      case RootLeaf(r) => if kind.Main? then Some(r) else None
      case ProcessLeaf(_, votes, census, nullifiers) =>
        match kind
        case Main => None
        case Votes => votes
        case Census => census
        case CensusPoseidon => census
        case Nullifiers => nullifiers;
    if root.Some? then Ok(root.value) else Err(ChildRootUnknown)
  }

  /** The leaf with the child root of a kind of tree replaced. */
  function SetRoot(kind: Kind, leaf: Leaf, root: Root): Result<Leaf, Error> {
    match kind
    case Main => if leaf.RootLeaf? then Ok(RootLeaf(root)) else Err(ChildRootUnknown)
    case Votes => if leaf.ProcessLeaf? then Ok(leaf.(votes := Some(root))) else Err(ChildRootUnknown)
    case Census => if leaf.ProcessLeaf? then Ok(leaf.(census := Some(root))) else Err(ChildRootUnknown)
    case CensusPoseidon => if leaf.ProcessLeaf? then Ok(leaf.(census := Some(root))) else Err(ChildRootUnknown)
    case Nullifiers => if leaf.ProcessLeaf? then Ok(leaf.(nullifiers := Some(root))) else Err(ChildRootUnknown)
  }

  /** Whether a leaf has a place for the root of a kind of tree. */
  predicate Fits(kind: Kind, leaf: Leaf) {
    if kind.Main? then leaf.RootLeaf? else leaf.ProcessLeaf?
  }

  /** Two leaves that differ at most in the child roots they embed. */
  predicate SameData(a: Leaf, b: Leaf) {
    match (a, b)
    case (Raw(x), Raw(y)) => x == y
    case (RootLeaf(_), RootLeaf(_)) => true
    case (ProcessLeaf(p, _, _, _), ProcessLeaf(q, _, _, _)) => p == q
    case _ => false
  }

  /** The laws the root setters and getters obey: what is set is read back, other
      fields and the rest of the leaf stay, and setting fails on foreign leaves only. */
  lemma RootLens(kind: Kind, leaf: Leaf, root: Root)
    ensures SetRoot(kind, leaf, root).Ok? <==> Fits(kind, leaf)
    ensures GetRoot(kind, leaf).Ok? ==> Fits(kind, leaf)
    ensures Fits(kind, leaf) ==>
              var after := SetRoot(kind, leaf, root).value;
              && SameData(leaf, after)
              && GetRoot(kind, after) == Ok(root)
              && forall other: Kind :: FieldOf(other) != FieldOf(kind) ==> GetRoot(other, after) == GetRoot(other, leaf)
  {
  }

  /** The child root that a tree's leaves give for a configuration. */
  function ChildRoot(r: Root, c: Config): Result<Root, Error> {
    if c.key in r.leaves then GetRoot(c.kind, r.leaves[c.key]) else Err(KeyNotFound)
  }

  function Lookup(r: Root, key: Bytes): Result<Leaf, Error> {
    if key in r.leaves then Ok(r.leaves[key]) else Err(KeyNotFound)
  }

  /** The database below one prefix: every root whose nodes were ever written there,
      the unhashed side storage, and the prefixes below, present from the moment the
      tree was first opened for update. */
  datatype Dir = Dir(roots: set<Root>, noState: map<Bytes, Bytes>, kids: map<Config, Dir>)

  const EMPTY_DIR: Dir := Dir({}, map[], map[])

  predicate Stored(d: Dir, r: Root) {
    r == EMPTY_ROOT || r in d.roots
  }

  /** Opens a tree of a committed state, level by level, from the main root. */
  function ViewTree(d: Dir, r: Root, path: seq<Config>): Result<Root, Error>
    decreases |path|
  {
    if path == [] then Ok(r)
    else
      var c := path[0];
      match ChildRoot(r, c)
      case Err(e) => Err(e)
      case Ok(child) =>
        if c !in d.kids then Err(EmptyTree)
        else if !Stored(d.kids[c], child) then Err(RootNotStored)
        else ViewTree(d.kids[c], child, path[1..])
  }

  /** Reads one leaf of a nested tree of a committed state. */
  function ViewGet(d: Dir, r: Root, path: seq<Config>, key: Bytes): Result<Leaf, Error> {
    match ViewTree(d, r, path)
    case Err(e) => Err(e)
    case Ok(t) => Lookup(t, key)
  }

  /** Whether every tree on a path has been opened for update at some time. */
  predicate Created(d: Dir, path: seq<Config>)
    decreases |path|
  {
    path == [] || (path[0] in d.kids && Created(d.kids[path[0]], path[1..]))
  }
}
