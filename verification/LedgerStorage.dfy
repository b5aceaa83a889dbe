/** The ledger in the database: its trees, and that every transaction can be written to them
    leaf by leaf. */
module LedgerStorage {
  import opened Common
  import opened Nested
  import opened Accounts
  import opened Voting
  import opened Storage
  import opened StoredRuns
  import Chain
  import LedgerRuns

  /** The keys of the trees of accounts, oracles, costs with the treasurer, and used packages,
      the keys of their leaves and the bytes of records. */
  datatype LedgerLayout = LedgerLayout(
    accounts: Bytes, oracles: Bytes, extra: Bytes, faucet: Bytes,
    address: Address -> Bytes, account: Account -> Bytes,
    costKey: TxType -> Bytes, cost: uint64 -> Bytes,
    treasurerKey: Bytes, treasurer: Treasurer -> Bytes,
    packageKey: ((Address, uint64)) -> Bytes)

  /** Package keys are hashes; trees, addresses, costs and the treasurer have keys of their own. */
  ghost predicate KeysDiffer(layout: LedgerLayout) {
    && Injective(layout.address) && Injective(layout.costKey) && Injective(layout.packageKey)
    && (forall t :: layout.costKey(t) != layout.treasurerKey)
    && layout.accounts !in {layout.oracles, layout.extra, layout.faucet} && layout.oracles !in {layout.extra, layout.faucet}
    && layout.extra != layout.faucet
  }

  /** Removed oracles keep an empty leaf. */
  function OracleLeaves(l: Ledger): map<Address, Bytes> {
    map a | a in l.oracles + l.removed :: if a in l.oracles then [1] else []
  }

  function PackageLeaves(l: Ledger): map<(Address, uint64), Bytes> {
    map k | k in l.faucet :: []
  }

  ghost function AccountTree(layout: LedgerLayout, l: Ledger): map<Bytes, Bytes>
    requires KeysDiffer(layout)
  {
    Encoded(l.accounts, layout.address, layout.account)
  }

  ghost function OracleTree(layout: LedgerLayout, l: Ledger): map<Bytes, Bytes>
    requires KeysDiffer(layout)
  {
    Encoded(OracleLeaves(l), layout.address, Same)
  }

  ghost function ExtraTree(layout: LedgerLayout, l: Ledger): map<Bytes, Bytes>
    requires KeysDiffer(layout)
  {
    Encoded(l.costs, layout.costKey, layout.cost)[layout.treasurerKey := layout.treasurer(l.treasurer)]
  }

  ghost function FaucetTree(layout: LedgerLayout, l: Ledger): map<Bytes, Bytes>
    requires KeysDiffer(layout)
  {
    Encoded(PackageLeaves(l), layout.packageKey, Same)
  }

  /** The trees of the ledger. */
  ghost function LedgerTrees(layout: LedgerLayout, l: Ledger): map<Bytes, map<Bytes, Bytes>>
    requires KeysDiffer(layout)
  {
    map[layout.accounts := AccountTree(layout, l), layout.oracles := OracleTree(layout, l),
        layout.extra := ExtraTree(layout, l), layout.faucet := FaucetTree(layout, l)]
  }

  /** The same trees, with no fewer leaves. */
  predicate Extends(m: map<Bytes, map<Bytes, Bytes>>, m': map<Bytes, map<Bytes, Bytes>>) {
    m.Keys == m'.Keys && forall k :: k in m ==> m[k].Keys <= m'[k].Keys
  }

  /** The leaves that have yet to be written. */
  function Missing(m: map<Bytes, map<Bytes, Bytes>>, m': map<Bytes, map<Bytes, Bytes>>): set<(Bytes, Bytes)> {
    set k, l | k in m' && l in m'[k] && !(k in m && l in m[k] && m[k][l] == m'[k][l]) :: (k, l)
  }

  lemma NothingMissing(m: map<Bytes, map<Bytes, Bytes>>, m': map<Bytes, map<Bytes, Bytes>>)
    requires Extends(m, m') && Missing(m, m') == {}
    ensures m == m'
  {
    forall k | k in m ensures m[k] == m'[k] {
      forall l | l in m'[k] ensures l in m[k] && m[k][l] == m'[k][l] {
        assert (k, l) !in Missing(m, m');
      }
    }
  }

  lemma OneLessMissing(m: map<Bytes, map<Bytes, Bytes>>, m': map<Bytes, map<Bytes, Bytes>>, k: Bytes, l: Bytes)
    requires Extends(m, m') && (k, l) in Missing(m, m')
    ensures var next := m[k := m[k][l := m'[k][l]]];
            Extends(next, m') && Missing(next, m') == Missing(m, m') - {(k, l)}
  {
  }

  /** Trees with more leaves can be reached by setting leaves. */
  lemma {:induction false} LeavesAreWritten(p: Bytes, m: map<Bytes, map<Bytes, Bytes>>, m': map<Bytes, map<Bytes, Bytes>>)
    returns (chs: seq<Change>)
    requires Extends(m, m') && p !in m
    ensures AllAside(p, chs) && SinglesAfter(p, m, chs) == m'
    decreases |Missing(m, m')|
  {
    if Missing(m, m') == {} {
      NothingMissing(m, m');
      chs := [];
    } else {
      var x :| x in Missing(m, m');
      var ch := SetSingle(x.0, x.1, m'[x.0][x.1]);
      var next := m[x.0 := m[x.0][x.1 := m'[x.0][x.1]]];
      OneLessMissing(m, m', x.0, x.1);
      var rest := LeavesAreWritten(p, next, m');
      chs := [ch] + rest;
      assert chs[1..] == rest;
      assert ChangeMap(p, Content(m, map[], map[]), ch) == Content(next, map[], map[]);
    }
  }

  lemma EncodedGrows<K(!new), V>(m: map<K, V>, m': map<K, V>, key: K -> Bytes, value: V -> Bytes)
    requires Injective(key) && m.Keys <= m'.Keys
    ensures Encoded(m, key, value).Keys <= Encoded(m', key, value).Keys
  {
    forall x | x in Encoded(m, key, value) ensures x in Encoded(m', key, value) {
      var k :| k in m && x == key(k);
      assert k in m'.Keys;
    }
  }

  lemma LedgerTreesGrow(layout: LedgerLayout, l: Ledger, l': Ledger)
    requires KeysDiffer(layout) && LedgerRuns.LeavesKept(l, l')
    ensures AccountTree(layout, l).Keys <= AccountTree(layout, l').Keys && OracleTree(layout, l).Keys <= OracleTree(layout, l').Keys
    ensures ExtraTree(layout, l).Keys <= ExtraTree(layout, l').Keys && FaucetTree(layout, l).Keys <= FaucetTree(layout, l').Keys
  {
    hide Encoded, Injective;
    EncodedGrows(l.accounts, l'.accounts, layout.address, layout.account);
    EncodedGrows(OracleLeaves(l), OracleLeaves(l'), layout.address, Same);
    EncodedGrows(l.costs, l'.costs, layout.costKey, layout.cost);
    EncodedGrows(PackageLeaves(l), PackageLeaves(l'), layout.packageKey, Same);
  }

  lemma LedgerExtends(layout: LedgerLayout, l: Ledger, l': Ledger)
    requires KeysDiffer(layout) && LedgerRuns.LeavesKept(l, l')
    ensures Extends(LedgerTrees(layout, l), LedgerTrees(layout, l'))
  {
    hide KeysDiffer, AccountTree, OracleTree, ExtraTree, FaucetTree, LedgerRuns.LeavesKept, Extends;
    LedgerTreesGrow(layout, l, l');
    FourKeys(layout);
    var m, m' := LedgerTrees(layout, l), LedgerTrees(layout, l');
    FourExtend(m, m', layout.accounts, layout.oracles, layout.extra, layout.faucet);
  }

  lemma FourKeys(layout: LedgerLayout)
    requires KeysDiffer(layout)
    ensures layout.accounts !in {layout.oracles, layout.extra, layout.faucet} && layout.oracles !in {layout.extra, layout.faucet}
    ensures layout.extra != layout.faucet
  {
  }

  lemma FourExtend(m: map<Bytes, map<Bytes, Bytes>>, m': map<Bytes, map<Bytes, Bytes>>, a: Bytes, b: Bytes, c: Bytes, d: Bytes)
    requires m.Keys == {a, b, c, d} && m'.Keys == {a, b, c, d}
    requires m[a].Keys <= m'[a].Keys && m[b].Keys <= m'[b].Keys && m[c].Keys <= m'[c].Keys && m[d].Keys <= m'[d].Keys
    ensures Extends(m, m')
  {
    forall k | k in m ensures m[k].Keys <= m'[k].Keys {
      assert k in {a, b, c, d};
    }
  }

  lemma StepKeepsLedger(env: Env, n: Node, step: Step)
    ensures LedgerRuns.LeavesKept(LedgerBefore(n, step), Chain.Next(env, n, step).working.ledger)
  {
    hide Chain.AddTx, Voting.Save, VoteEnvelopeCheck, Chain.TakesCached;
    if step.DeliverTx? {
      LedgerRuns.DeliveryKeepsLeaves(env, n.working, step.tx, n.height, Chain.Cached(n, step.tx));
    }
  }

  /** For every run of a node there are writes that follow its ledger. */
  lemma {:induction false} LedgerCanFollow(layout: Layout, trees: LedgerLayout, env: Env, n: Node, steps: seq<Step>) returns (asides: seq<seq<Change>>)
    requires NoCollision(layout) && KeysDiffer(trees) && forall l :: layout.ledger(l) == LedgerTrees(trees, l)
    ensures |asides| == |steps| && AsidesFit(layout, env, n, steps, asides)
    decreases |steps|
  {
    hide LedgerTrees, KeysDiffer, Chain.Next, AllAside, SinglesAfter, LedgerBefore, LedgerRuns.LeavesKept, Extends;
    if steps == [] {
      asides := [];
    } else {
      var l, m := LedgerBefore(n, steps[0]), Chain.Next(env, n, steps[0]);
      StepKeepsLedger(env, n, steps[0]);
      LedgerExtends(trees, l, m.working.ledger);
      var chs := LeavesAreWritten(layout.processes, layout.ledger(l), layout.ledger(m.working.ledger));
      var rest := LedgerCanFollow(layout, trees, env, m, steps[1..]);
      asides := [chs] + rest;
      assert asides[1..] == rest;
    }
  }
}
