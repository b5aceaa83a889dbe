/** The census tree: a Merkle tree with a leaf counter, the total weight and, for a census
    whose leaves are numbered, the number of every key, all kept beside the tree. */
module CensusTree {
  import opened Common
  import opened Sums
  import opened LittleEndian

  /** The bytes of a leaf number, and the size of its integer type. */
  const INDEX_SIZE := 8

  datatype Error = KeyExists | ValueNotAllowed | LengthMismatch | TreeNotEmpty | KeyNotFound

  /** What is stored: the leaves, the numbers that the bytes of counter and weight stand
      for, and the leaf number of each key. */
  datatype Store = Store(leaves: map<Bytes, Bytes>, index: nat, weight: nat, keyIndex: map<Bytes, Bytes>)

  /** The shape of a census: whether leaves are numbered, and the length of its integers. */
  datatype Shape = Shape(indexed: bool, hashLen: nat)

  /** A stored number after an addition, cut to the bytes it is stored in. */
  function Raise(shape: Shape, n: nat, delta: nat): nat {
    (n + delta) % Pow256(shape.hashLen)
  }

  // ------------------------------------------------ one key at a time

  /** Adding one leaf, or failing and changing nothing. */
  function AddOne(shape: Shape, s: Store, key: Bytes, value: Option<Bytes>): Result<Store, Error> {
    var index := Raise(shape, s.index, 1);
    if shape.indexed then
      var leaf := Encode(INDEX_SIZE, s.index % TWO64);
      if value.Some? then Err(ValueNotAllowed)
      else if leaf in s.leaves then Err(KeyExists)
      else Ok(s.(leaves := s.leaves[leaf := key], index := index, keyIndex := s.keyIndex[key := leaf]))
    else if key in s.leaves then Err(KeyExists)
    else
      var weight := if value.Some? then Raise(shape, s.weight, Decode(value.value)) else s.weight;
      Ok(s.(leaves := s.leaves[key := value.GetOr([])], index := index, weight := weight))
  }

  /** Adding keys one by one, going on after a failure. */
  function AddEach(shape: Shape, s: Store, keys: seq<Bytes>, values: Option<seq<Bytes>>): Store
    requires values.Some? ==> |values.value| == |keys|
    decreases |keys|
  {
    if keys == [] then s
    else
      var n := |keys| - 1;
      var before := AddEach(shape, s, keys[..n], if values.Some? then Some(values.value[..n]) else None);
      match AddOne(shape, before, keys[n], if values.Some? then Some(values.value[n]) else None)
      case Ok(t) => t
      case Err(_) => before
  }

  // ------------------------------------------------ a batch on the tree

  /** The leaves after a batch: keys that exist, or come twice, are left alone. */
  function BatchLeaves(leaves: map<Bytes, Bytes>, keys: seq<Bytes>, values: seq<Bytes>): map<Bytes, Bytes>
    requires |keys| == |values|
  {
    if keys == [] then leaves
    else
      var n := |keys| - 1;
      var before := BatchLeaves(leaves, keys[..n], values[..n]);
      if keys[n] in before then before else before[keys[n] := values[n]]
  }

  /** The positions of the keys a batch leaves out. */
  function Invalids(leaves: map<Bytes, Bytes>, keys: seq<Bytes>, values: seq<Bytes>): (r: seq<nat>)
    requires |keys| == |values|
    ensures |r| <= |keys| && forall i :: 0 <= i < |r| ==> r[i] < |keys|
  {
    if keys == [] then []
    else
      var n := |keys| - 1;
      var before := Invalids(leaves, keys[..n], values[..n]);
      if keys[n] in BatchLeaves(leaves, keys[..n], values[..n]) then before + [n] else before
  }

  function Weights(values: seq<Bytes>): nat {
    if values == [] then 0 else Weights(values[..|values| - 1]) + Decode(values[|values| - 1])
  }

  function WeightsAt(values: seq<Bytes>, at: seq<nat>): nat
    requires forall i :: 0 <= i < |at| ==> at[i] < |values|
  {
    if at == [] then 0 else WeightsAt(values, at[..|at| - 1]) + Decode(values[at[|at| - 1]])
  }

  // ------------------------------------------------ what the counters mean

  ghost function LeafWeights(leaves: map<Bytes, Bytes>): map<Bytes, int> {
    map k | k in leaves :: Decode(leaves[k])
  }

  ghost function LeafTotal(leaves: map<Bytes, Bytes>): nat {
    TotalNonNegative(LeafWeights(leaves));
    Total(LeafWeights(leaves))
  }

  /** The counter is the number of leaves and the weight their sum, both as far as the
      integers of the census reach. */
  ghost predicate WeightedOk(shape: Shape, s: Store) {
    Holds(shape, s.index, |s.leaves|) && Holds(shape, s.weight, LeafTotal(s.leaves))
  }

  /** A stored number that stands for another, modulo what fits. */
  predicate Holds(shape: Shape, stored: nat, n: int) {
    stored == n % Pow256(shape.hashLen)
  }

  lemma RaiseHolds(shape: Shape, stored: nat, n: int, delta: nat)
    requires Holds(shape, stored, n)
    ensures Holds(shape, Raise(shape, stored, delta), n + delta)
  {
    ModAdd(delta, n, Pow256(shape.hashLen));
  }

  /** Leaf numbers are sequential and the counter is the next one. */
  ghost predicate Sequential(s: Store) {
    s.index == |s.leaves| && Numbered(s.leaves)
  }

  ghost predicate Numbered(leaves: map<Bytes, Bytes>) {
    && (forall i: nat :: i < |leaves| ==> Encode(INDEX_SIZE, i) in leaves)
    && forall k :: k in leaves ==> exists i: nat :: i < |leaves| && k == Encode(INDEX_SIZE, i)
  }

  /** Every key resolves to a leaf that holds it, and every leaf is resolved to by its key. */
  predicate Resolves(leaves: map<Bytes, Bytes>, keyIndex: map<Bytes, Bytes>) {
    && (forall k :: k in keyIndex ==> keyIndex[k] in leaves && leaves[keyIndex[k]] == k)
    && forall l :: l in leaves ==> leaves[l] in keyIndex
  }

  ghost predicate IndexedOk(s: Store) {
    Sequential(s) && Resolves(s.leaves, s.keyIndex)
  }

  /** The integers of the census hold any leaf number. */
  predicate Wide(shape: Shape) {
    shape.hashLen >= INDEX_SIZE
  }

  lemma FreshNumber(s: Store)
    requires Sequential(s) && |s.leaves| < TWO64
    ensures Encode(INDEX_SIZE, |s.leaves|) !in s.leaves
  {
    Pow256Of8();
    var k := Encode(INDEX_SIZE, |s.leaves|);
    if k in s.leaves {
      var i: nat :| i < |s.leaves| && k == Encode(INDEX_SIZE, i);
      EncodeInjective(INDEX_SIZE, i, |s.leaves|);
    }
  }

  lemma RaiseFits(shape: Shape, n: nat, delta: nat)
    requires Wide(shape) && n + delta < TWO64
    ensures Raise(shape, n, delta) == n + delta
  {
    hide Pow256;
    Pow256Of8();
    Pow256Grows(INDEX_SIZE, shape.hashLen);
    ModIs(n + delta, Pow256(shape.hashLen), 0, n + delta);
  }

  lemma RaiseTwice(shape: Shape, n: nat, a: nat, b: nat)
    ensures Raise(shape, Raise(shape, n, a), b) == Raise(shape, n, a + b)
  {
    ModAdd(b, n + a, Pow256(shape.hashLen));
  }

  /** Adding a key to a numbered census succeeds under the next number. */
  lemma AddIndexed(shape: Shape, s: Store, key: Bytes)
    requires shape.indexed && Wide(shape) && IndexedOk(s) && |s.leaves| + 1 < TWO64
    ensures var leaf, r := Encode(INDEX_SIZE, |s.leaves|), AddOne(shape, s, key, None);
            && leaf !in s.leaves
            && r == Ok(s.(leaves := s.leaves[leaf := key], index := Raise(shape, s.index, 1), keyIndex := s.keyIndex[key := leaf]))
            && IndexedOk(r.value)
  {
    hide Encode, Decode, Raise;
    FreshNumber(s);
    RaiseFits(shape, s.index, 1);
    var t := AddOne(shape, s, key, None).value;
    NextIsSequential(s.leaves, t.leaves, key);
    NextResolves(s.leaves, s.keyIndex, Encode(INDEX_SIZE, |s.leaves|), key);
  }

  lemma NextIsSequential(leaves: map<Bytes, Bytes>, more: map<Bytes, Bytes>, key: Bytes)
    requires Numbered(leaves) && Encode(INDEX_SIZE, |leaves|) !in leaves && more == leaves[Encode(INDEX_SIZE, |leaves|) := key]
    ensures Numbered(more) && |more| == |leaves| + 1
  {
    hide Encode;
    assert more.Keys == leaves.Keys + {Encode(INDEX_SIZE, |leaves|)};
    forall k | k in more ensures exists i: nat :: i < |more| && k == Encode(INDEX_SIZE, i) {
      if k in leaves {
        var i: nat :| i < |leaves| && k == Encode(INDEX_SIZE, i);
      }
    }
  }

  lemma NextResolves(leaves: map<Bytes, Bytes>, keyIndex: map<Bytes, Bytes>, leaf: Bytes, key: Bytes)
    requires Resolves(leaves, keyIndex) && leaf !in leaves
    ensures Resolves(leaves[leaf := key], keyIndex[key := leaf])
  {
  }

  /** Adding a leaf to a weighted census keeps counter and weight right. */
  lemma AddWeighted(shape: Shape, s: Store, key: Bytes, value: Option<Bytes>)
    requires !shape.indexed && WeightedOk(shape, s)
    ensures var r := AddOne(shape, s, key, value);
            && (r.Ok? <==> key !in s.leaves)
            && (r.Ok? ==> WeightedOk(shape, r.value) && r.value.leaves == s.leaves[key := value.GetOr([])])
  {
    hide Decode, Raise, Holds, LeafTotal;
    if key !in s.leaves {
      var v := value.GetOr([]);
      LeafWeightAdded(s.leaves, key, v);
      RaiseHolds(shape, s.index, |s.leaves|, 1);
      RaiseHolds(shape, s.weight, LeafTotal(s.leaves), Decode(v));
      NoWeight();
    }
  }

  lemma NoWeight()
    ensures Decode([]) == 0
  {
  }

  lemma LeafWeightAdded(leaves: map<Bytes, Bytes>, key: Bytes, value: Bytes)
    requires key !in leaves
    ensures LeafTotal(leaves[key := value]) == LeafTotal(leaves) + Decode(value)
    ensures |leaves[key := value]| == |leaves| + 1
  {
    hide Decode, Total;
    var more := leaves[key := value];
    assert more.Keys == leaves.Keys + {key};
    assert LeafWeights(more).Keys == LeafWeights(leaves)[key := Decode(value)].Keys;
    assert LeafWeights(more) == LeafWeights(leaves)[key := Decode(value)];
    TotalUpdate(LeafWeights(leaves), key, Decode(value));
  }

  /** A census built by adding keys one by one, whatever fails. */
  lemma {:induction false} AddEachWeighted(shape: Shape, s: Store, keys: seq<Bytes>, values: Option<seq<Bytes>>)
    requires !shape.indexed && WeightedOk(shape, s) && (values.Some? ==> |values.value| == |keys|)
    ensures WeightedOk(shape, AddEach(shape, s, keys, values))
    decreases |keys|
  {
    if keys != [] {
      var n := |keys| - 1;
      var init, last := if values.Some? then Some(values.value[..n]) else None, if values.Some? then Some(values.value[n]) else None;
      AddEachWeighted(shape, s, keys[..n], init);
      AddWeighted(shape, AddEach(shape, s, keys[..n], init), keys[n], last);
    }
  }

  lemma {:induction false} AddEachIndexed(shape: Shape, s: Store, keys: seq<Bytes>)
    requires shape.indexed && Wide(shape) && IndexedOk(s) && |s.leaves| + |keys| < TWO64
    ensures var t := AddEach(shape, s, keys, None);
            IndexedOk(t) && |t.leaves| == |s.leaves| + |keys|
    decreases |keys|
  {
    if keys != [] {
      var n := |keys| - 1;
      AddEachIndexed(shape, s, keys[..n]);
      AddIndexed(shape, AddEach(shape, s, keys[..n], None), keys[n]);
    }
  }

  // ------------------------------------------------ a batch is its keys one by one

  /** The weight that a batch adds. */
  function AddedWeight(leaves: map<Bytes, Bytes>, keys: seq<Bytes>, values: seq<Bytes>): nat
    requires |keys| == |values|
  {
    if keys == [] then 0
    else
      var n := |keys| - 1;
      AddedWeight(leaves, keys[..n], values[..n]) +
      if keys[n] in BatchLeaves(leaves, keys[..n], values[..n]) then 0 else Decode(values[n])
  }

  lemma {:induction false} WeightsAtPrefix(values: seq<Bytes>, n: nat, at: seq<nat>)
    requires n <= |values| && forall i :: 0 <= i < |at| ==> at[i] < n
    ensures WeightsAt(values, at) == WeightsAt(values[..n], at)
    decreases |at|
  {
    if at != [] {
      WeightsAtPrefix(values, n, at[..|at| - 1]);
    }
  }

  /** The weight of all values without that of the invalid ones. */
  lemma {:induction false} AddedIsAllButInvalid(leaves: map<Bytes, Bytes>, keys: seq<Bytes>, values: seq<Bytes>)
    requires |keys| == |values|
    ensures AddedWeight(leaves, keys, values) == Weights(values) - WeightsAt(values, Invalids(leaves, keys, values))
    decreases |keys|
  {
    if keys != [] {
      var n := |keys| - 1;
      var before := Invalids(leaves, keys[..n], values[..n]);
      AddedIsAllButInvalid(leaves, keys[..n], values[..n]);
      WeightsAtPrefix(values, n, before);
      assert (before + [n])[..|before|] == before;
    }
  }

  function Batched(shape: Shape, s: Store, keys: seq<Bytes>, values: seq<Bytes>): Store
    requires |keys| == |values|
  {
    s.(leaves := BatchLeaves(s.leaves, keys, values),
       index := Raise(shape, s.index, |keys| - |Invalids(s.leaves, keys, values)|),
       weight := Raise(shape, s.weight, AddedWeight(s.leaves, keys, values)))
  }

  /** Both counters fit in their bytes. */
  predicate Stored(shape: Shape, s: Store) {
    s.index < Pow256(shape.hashLen) && s.weight < Pow256(shape.hashLen)
  }

  lemma {:induction false} BatchIsEach(shape: Shape, s: Store, keys: seq<Bytes>, values: seq<Bytes>)
    requires !shape.indexed && Stored(shape, s) && |keys| == |values|
    ensures AddEach(shape, s, keys, Some(values)) == Batched(shape, s, keys, values)
    decreases |keys|
  {
    hide Decode, Raise;
    if keys == [] {
      RaiseNothing(shape, s.index);
      RaiseNothing(shape, s.weight);
    } else {
      var n := |keys| - 1;
      BatchIsEach(shape, s, keys[..n], values[..n]);
      RaiseTwice(shape, s.index, n - |Invalids(s.leaves, keys[..n], values[..n])|, 1);
      RaiseTwice(shape, s.weight, AddedWeight(s.leaves, keys[..n], values[..n]), Decode(values[n]));
    }
  }

  lemma RaiseNothing(shape: Shape, n: nat)
    requires n < Pow256(shape.hashLen)
    ensures Raise(shape, n, 0) == n
  {
    ModIs(n, Pow256(shape.hashLen), 0, n);
  }

  function Nth(first: uint32, i: nat): uint32 {
    (first + i) % TWO32
  }

  lemma NthStep(first: uint32, i: nat)
    ensures Add32(Nth(first, i), 1) == Nth(first, i + 1) && Nth(first, 0) == first && (first + i < TWO32 ==> Nth(first, i) == first + i)
  {
  }

  /** The numbers that a batch gives to its keys, counted in 32 bits. */
  function Numbers(first: uint32, count: nat): (r: seq<Bytes>)
    ensures |r| == count
  {
    if count == 0 then [] else Numbers(first, count - 1) + [Encode(INDEX_SIZE, Nth(first, count - 1))]
  }

  function KeysIndexed(m: map<Bytes, Bytes>, first: uint32, keys: seq<Bytes>): map<Bytes, Bytes> {
    if keys == [] then m
    else var n := |keys| - 1; KeysIndexed(m, first, keys[..n])[keys[n] := Encode(INDEX_SIZE, Nth(first, n))]
  }

  lemma BatchStep(leaves: map<Bytes, Bytes>, keys: seq<Bytes>, k: Bytes, values: seq<Bytes>)
    requires 0 < |values| == |keys| + 1
    ensures var n := |keys|;
            var before := BatchLeaves(leaves, keys, values[..n]);
            && BatchLeaves(leaves, keys + [k], values) == (if k in before then before else before[k := values[n]])
            && Invalids(leaves, keys + [k], values) == Invalids(leaves, keys, values[..n]) + if k in before then [n] else []
  {
    assert (keys + [k])[..|keys|] == keys;
  }

  lemma NumberStep(m: map<Bytes, Bytes>, first: uint32, keys: seq<Bytes>)
    requires keys != [] && first + |keys| < TWO32
    ensures var n := |keys| - 1;
            && Numbers(first, |keys|) == Numbers(first, n) + [Encode(INDEX_SIZE, first + n)]
            && KeysIndexed(m, first, keys) == KeysIndexed(m, first, keys[..n])[keys[n] := Encode(INDEX_SIZE, first + n)]
  {
    hide Encode, Nth;
    NthStep(first, |keys| - 1);
  }

  lemma NoKeys(shape: Shape, s: Store)
    ensures |s.leaves| < TWO32 ==> Numbers(|s.leaves|, 0) == [] && KeysIndexed(s.keyIndex, |s.leaves|, []) == s.keyIndex
    ensures AddEach(shape, s, [], None) == s
    ensures BatchLeaves(s.leaves, [], []) == s.leaves && Invalids(s.leaves, [], []) == [] && AddedWeight(s.leaves, [], []) == 0
  {
  }

  lemma AddStep(shape: Shape, s: Store, keys: seq<Bytes>)
    requires keys != []
    ensures var before, r := AddEach(shape, s, keys[..|keys| - 1], None), AddEach(shape, s, keys, None);
            match AddOne(shape, before, keys[|keys| - 1], None)
            case Ok(t) => r == t
            case Err(_) => r == before
  {
  }

  /** A batch on a numbered census leaves no key out. */
  lemma {:induction false} IndexedBatchIsEach(shape: Shape, s: Store, keys: seq<Bytes>)
    requires shape.indexed && Wide(shape) && IndexedOk(s) && |s.leaves| + |keys| < TWO32
    ensures var first, t := |s.leaves|, AddEach(shape, s, keys, None);
            && Invalids(s.leaves, Numbers(first, |keys|), keys) == []
            && t.leaves == BatchLeaves(s.leaves, Numbers(first, |keys|), keys)
            && t.keyIndex == KeysIndexed(s.keyIndex, first, keys)
            && t.index == s.index + |keys| && t.weight == s.weight
    decreases |keys|
  {
    hide Encode, Raise, IndexedOk, BatchLeaves, Invalids, AddEach, AddOne, Wide, Numbers, KeysIndexed;
    if keys == [] {
      NoKeys(shape, s);
    } else {
      SequentialCount(s);
      NumberStep(s.keyIndex, |s.leaves|, keys);
      var n, first := |keys| - 1, |s.leaves|;
      IndexedBatchIsEach(shape, s, keys[..n]);
      AddEachIndexed(shape, s, keys[..n]);
      AddIndexed(shape, AddEach(shape, s, keys[..n], None), keys[n]);
      RaiseFits(shape, s.index + n, 1);
      BatchStep(s.leaves, Numbers(first, n), Encode(INDEX_SIZE, first + n), keys);
      AddStep(shape, s, keys);
    }
  }

  // ------------------------------------------------ proofs of membership

  /** The leaf that stands for a key. */
  function LeafOf(shape: Shape, s: Store, key: Bytes): Option<Bytes> {
    if !shape.indexed then Some(key) else if key in s.keyIndex then Some(s.keyIndex[key]) else None
  }

  /** A proof is about the value of a leaf. */
  function GenProof(shape: Shape, s: Store, key: Bytes): Result<Bytes, Error> {
    match LeafOf(shape, s, key)
    case None => Err(KeyNotFound)
    case Some(leaf) => if leaf in s.leaves then Ok(s.leaves[leaf]) else Err(KeyNotFound)
  }

  /** Whether a value is proved to be under a root, a root standing for its leaves. */
  predicate VerifyProof(shape: Shape, s: Store, key: Bytes, value: Bytes, root: map<Bytes, Bytes>) {
    var leaf := LeafOf(shape, s, if shape.indexed then value else key);
    leaf.Some? && leaf.value in root && root[leaf.value] == value
  }

  /** In a numbered census exactly the registered keys have proofs, of their own value, and
      these verify. */
  lemma ProofsAreOfMembers(shape: Shape, s: Store, key: Bytes)
    requires shape.indexed ==> IndexedOk(s)
    ensures var r := GenProof(shape, s, key);
            && (r.Ok? <==> if shape.indexed then key in s.leaves.Values else key in s.leaves)
            && (r.Ok? ==> VerifyProof(shape, s, key, r.value, s.leaves) && (shape.indexed ==> r.value == key))
  {
    if shape.indexed && key in s.leaves.Values {
      var l :| l in s.leaves && s.leaves[l] == key;
    }
  }

  /** A proof verifies against a root exactly if the root holds the value under the key, or, in
      a numbered census, under the number recorded for the value. */
  lemma VerifiesIffHeld(shape: Shape, s: Store, key: Bytes, value: Bytes, root: map<Bytes, Bytes>)
    ensures VerifyProof(shape, s, key, value, root) <==>
            if shape.indexed then value in s.keyIndex && s.keyIndex[value] in root && root[s.keyIndex[value]] == value
            else key in root && root[key] == value
  {
  }

  /** In a numbered census exactly the registered keys verify against its root. */
  lemma VerifiesIffRegistered(shape: Shape, s: Store, key: Bytes, value: Bytes)
    requires shape.indexed && IndexedOk(s)
    ensures VerifyProof(shape, s, key, value, s.leaves) <==> value in s.leaves.Values
  {
    if value in s.leaves.Values {
      var l :| l in s.leaves && s.leaves[l] == value;
    }
  }

  /** The number of a key after more were added: the old one, or one that was not taken. */
  predicate NumberKept(s: Store, t: Store, keys: seq<Bytes>, value: Bytes) {
    if value in keys then value in t.keyIndex && t.keyIndex[value] !in s.leaves
    else (value in t.keyIndex <==> value in s.keyIndex) && (value in s.keyIndex ==> t.keyIndex[value] == s.keyIndex[value])
  }

  lemma {:induction false} NumbersKept(shape: Shape, s: Store, keys: seq<Bytes>, value: Bytes)
    requires shape.indexed && Wide(shape) && IndexedOk(s) && |s.leaves| + |keys| < TWO64
    ensures var t := AddEach(shape, s, keys, None); NumberKept(s, t, keys, value) && s.leaves.Keys <= t.leaves.Keys
    decreases |keys|
  {
    hide Encode, Raise, IndexedOk, AddEach, AddOne;
    if keys == [] {
      NoKeys(shape, s);
    } else {
      var n := |keys| - 1;
      NumbersKept(shape, s, keys[..n], value);
      AddEachIndexed(shape, s, keys[..n]);
      AddIndexed(shape, AddEach(shape, s, keys[..n], None), keys[n]);
      AddStep(shape, s, keys);
      assert keys == keys[..n] + [keys[n]];
    }
  }

  /** Against an earlier root a key verifies exactly if it was registered by then and not again
      since: a later registration gives it another number. */
  lemma EarlierRootVerifiesIff(shape: Shape, s: Store, keys: seq<Bytes>, key: Bytes, value: Bytes)
    requires shape.indexed && Wide(shape) && IndexedOk(s) && |s.leaves| + |keys| < TWO64
    ensures VerifyProof(shape, AddEach(shape, s, keys, None), key, value, s.leaves) <==> value in s.leaves.Values && value !in keys
  {
    hide AddEach, IndexedOk;
    NumbersKept(shape, s, keys, value);
    VerifiesIffRegistered(shape, s, key, value);
  }

  // ------------------------------------------------ importing

  /** What importing a dump into an empty weighted census leaves. */
  ghost function Imported(shape: Shape, s: Store, dump: map<Bytes, Bytes>): Store {
    s.(leaves := dump, weight := Raise(shape, s.weight, LeafTotal(dump)))
  }

  /** The import keeps the weight right, and the counter exactly if the number of leaves is
      nothing modulo what fits. */
  lemma ImportLeavesCounter(shape: Shape, s: Store, dump: map<Bytes, Bytes>)
    requires WeightedOk(shape, s) && s.leaves == map[]
    ensures Holds(shape, Imported(shape, s, dump).weight, LeafTotal(dump))
    ensures WeightedOk(shape, Imported(shape, s, dump)) <==> |dump| % Pow256(shape.hashLen) == 0
  {
    assert LeafTotal(map[]) == 0;
    hide LeafTotal, Pow256;
    RaiseHolds(shape, s.weight, 0, LeafTotal(dump));
    ModIs(0, Pow256(shape.hashLen), 0, 0);
  }

  // ------------------------------------------------ the tree as it is used

  /** The first eight bytes of a leaf key, filled up with zeros. */
  function Eight(k: Bytes): Bytes {
    if |k| >= INDEX_SIZE then k[..INDEX_SIZE] else k + seq(INDEX_SIZE - |k|, _ => 0)
  }

  predicate EightBytes(leaves: map<Bytes, Bytes>) {
    forall k :: k in leaves ==> |k| == INDEX_SIZE
  }

  /** Keys resolve, but for those of some leaves. */
  predicate ResolvesBut(leaves: map<Bytes, Bytes>, keyIndex: map<Bytes, Bytes>, rest: set<Bytes>) {
    && (forall k :: k in keyIndex ==> keyIndex[k] in leaves && leaves[keyIndex[k]] == k)
    && forall l :: l in leaves && l !in rest ==> leaves[l] in keyIndex
  }

  lemma NoneResolved(leaves: map<Bytes, Bytes>)
    ensures ResolvesBut(leaves, map[], leaves.Keys)
  {
  }

  lemma OneMoreResolved(leaves: map<Bytes, Bytes>, keyIndex: map<Bytes, Bytes>, rest: set<Bytes>, leaf: Bytes)
    requires EightBytes(leaves) && ResolvesBut(leaves, keyIndex, rest) && leaf in leaves
    ensures ResolvesBut(leaves, keyIndex[leaves[leaf] := Eight(leaf)], rest - {leaf})
  {
    assert Eight(leaf) == leaf;
  }

  lemma AllResolved(leaves: map<Bytes, Bytes>, keyIndex: map<Bytes, Bytes>)
    ensures ResolvesBut(leaves, keyIndex, {}) ==> Resolves(leaves, keyIndex)
  {
  }

  class Tree {
    const shape: Shape
    var leaves: map<Bytes, Bytes>
    var index: Bytes
    var weight: Bytes
    var keyIndex: map<Bytes, Bytes>

    constructor (shape: Shape)
      ensures this.shape == shape && Valid() && Value() == Store(map[], 0, 0, map[])
    {
      this.shape := shape;
      leaves, keyIndex := map[], map[];
      index, weight := Encode(shape.hashLen, 0), [];
      new;
      DecodeEncode(shape.hashLen, 0);
      ModIs(0, Pow256(shape.hashLen), 0, 0);
    }

    predicate Valid()
      reads this
    {
      |index| <= shape.hashLen && |weight| <= shape.hashLen
    }

    function Value(): Store
      reads this
    {
      Store(leaves, Decode(index), Decode(weight), keyIndex)
    }

    lemma ValueFits()
      requires Valid()
      ensures Stored(shape, Value())
    {
      hide Decode, Pow256;
      DecodeBound(index);
      DecodeBound(weight);
      Pow256Grows(|index|, shape.hashLen);
      Pow256Grows(|weight|, shape.hashLen);
    }

    /** Raises the counter and returns what it was. */
    method UpdateIndex(delta: uint32) returns (before: uint64)
      requires Valid()
      modifies this`index
      ensures Valid() && Decode(index) == Raise(shape, old(Decode(index)), delta)
      ensures before == old(Decode(index)) % TWO64
    {
      before := Decode(index) % TWO64;
      DecodeEncode(shape.hashLen, Decode(index) + delta);
      index := Encode(shape.hashLen, Decode(index) + delta);
    }

    method UpdateWeight(w: Bytes)
      requires Valid()
      modifies this`weight
      ensures Valid() && Decode(weight) == Raise(shape, old(Decode(weight)), Decode(w))
    {
      DecodeEncode(shape.hashLen, Decode(weight) + Decode(w));
      weight := Encode(shape.hashLen, Decode(weight) + Decode(w));
    }

    /** Adds one key; when the tree refuses it the counter goes back. */
    method Add(key: Bytes, value: Option<Bytes>) returns (err: Option<Error>)
      requires Valid()
      modifies this
      ensures Valid()
      ensures match AddOne(shape, old(Value()), key, value)
              case Ok(t) => err.None? && Value() == t
              case Err(e) => err == Some(e) && Value() == old(Value())
    {
      hide Decode, Encode, Raise;
      var discard := index;
      var number := UpdateIndex(1);
      if shape.indexed {
        var leaf := Encode(INDEX_SIZE, number);
        if value.Some? || leaf in leaves {
          index := discard;
          return Some(if value.Some? then ValueNotAllowed else KeyExists);
        }
        leaves := leaves[leaf := key];
        keyIndex := keyIndex[key := leaf];
      } else {
        if key in leaves {
          index := discard;
          return Some(KeyExists);
        }
        leaves := leaves[key := value.GetOr([])];
        if value.Some? {
          UpdateWeight(value.value);
        }
      }
      return None;
    }

    /** The weight of a batch: that of all values, and back what the tree left out. */
    method WeighBatch(values: seq<Bytes>, invalids: seq<nat>) returns (added: int)
      requires forall i :: 0 <= i < |invalids| ==> invalids[i] < |values|
      ensures added == Weights(values) - WeightsAt(values, invalids)
    {
      hide Decode;
      added := 0;
      for i := 0 to |values|
        invariant added == Weights(values[..i])
      {
        assert values[..i + 1][..i] == values[..i];
        added := added + Decode(values[i]);
      }
      assert values[..|values|] == values;
      for i := 0 to |invalids|
        invariant added == Weights(values) - WeightsAt(values, invalids[..i])
      {
        assert invalids[..i + 1][..i] == invalids[..i];
        added := added - Decode(values[invalids[i]]);
      }
      assert invalids[..|invalids|] == invalids;
    }

    /** Numbers the keys of a batch from the counter on. */
    method NumberKeys(keys: seq<Bytes>) returns (newKeys: seq<Bytes>)
      modifies this`keyIndex
      ensures newKeys == Numbers(Decode(index) % TWO32, |keys|)
      ensures keyIndex == KeysIndexed(old(keyIndex), Decode(index) % TWO32, keys)
    {
      hide Encode, Decode, Nth, Add32;
      var first: uint32 := Decode(index) % TWO32;
      var number := first;
      NthStep(first, 0);
      newKeys := [];
      for i := 0 to |keys|
        invariant number == Nth(first, i)
        invariant newKeys == Numbers(first, i)
        invariant keyIndex == KeysIndexed(old(keyIndex), first, keys[..i])
      {
        assert keys[..i + 1][..i] == keys[..i];
        newKeys := newKeys + [Encode(INDEX_SIZE, number)];
        keyIndex := keyIndex[keys[i] := Encode(INDEX_SIZE, number)];
        NthStep(first, i);
        number := Add32(number, 1);
      }
      assert keys[..|keys|] == keys;
    }

    method AddIndexedBatch(keys: seq<Bytes>) returns (invalids: seq<nat>)
      requires Valid()
      modifies this`leaves, this`index, this`keyIndex
      ensures var newKeys := Numbers(old(Decode(index)) % TWO32, |keys|);
              && Valid() && invalids == Invalids(old(leaves), newKeys, keys)
              && leaves == BatchLeaves(old(leaves), newKeys, keys)
              && keyIndex == KeysIndexed(old(keyIndex), old(Decode(index)) % TWO32, keys)
              && Decode(index) == Raise(shape, old(Decode(index)), (|keys| - |invalids|) % TWO32)
    {
      hide Raise, Decode, Numbers, KeysIndexed, BatchLeaves, Invalids;
      var newKeys := NumberKeys(keys);
      invalids := Invalids(leaves, newKeys, keys);
      leaves := BatchLeaves(leaves, newKeys, keys);
      var _ := UpdateIndex((|keys| - |invalids|) % TWO32);
    }

    method AddWeightedBatch(keys: seq<Bytes>, values: Option<seq<Bytes>>) returns (invalids: seq<nat>)
      requires Valid() && !shape.indexed && |keys| == |values.GetOr([])|
      modifies this`leaves, this`index, this`weight
      ensures Valid() && invalids == Invalids(old(leaves), keys, values.GetOr([]))
      ensures leaves == BatchLeaves(old(leaves), keys, values.GetOr([]))
      ensures |keys| < TWO32 ==> Value() == AddEach(shape, old(Value()), keys, Some(values.GetOr([])))
    {
      hide AddEach, BatchLeaves, Invalids, Decode, Raise, Weights, WeightsAt, AddedWeight;
      var vs := values.GetOr([]);
      ghost var was := Value();
      ValueFits();
      BatchIsEach(shape, was, keys, vs);
      AddedIsAllButInvalid(leaves, keys, vs);
      RaiseNothing(shape, was.weight);
      NoKeys(shape, was);
      invalids := Invalids(leaves, keys, vs);
      leaves := BatchLeaves(leaves, keys, vs);
      var _ := UpdateIndex((|keys| - |invalids|) % TWO32);
      if values.Some? {
        var added := WeighBatch(vs, invalids);
        EncodedWeight(shape, was.weight, added);
        UpdateWeight(Encode(shape.hashLen, added));
      }
    }

    /** A batch is its keys added one by one, going on after those the tree leaves out, which
        are the ones reported; in a numbered census below 2^32 leaves there are none. */
    method AddBatch(keys: seq<Bytes>, values: Option<seq<Bytes>>) returns (r: Result<seq<nat>, Error>)
      requires Valid()
      modifies this
      ensures Valid()
      ensures r.Err? ==> Value() == old(Value())
      ensures shape.indexed ==> (r == Err(ValueNotAllowed) <==> values.Some?) && (r.Err? ==> values.Some?)
      ensures shape.indexed && values.None? && Wide(shape) && old(IndexedOk(Value())) && |old(leaves)| + |keys| < TWO32 ==>
                r == Ok([]) && Value() == AddEach(shape, old(Value()), keys, None) && IndexedOk(Value())
      ensures !shape.indexed ==> r == if |keys| != |values.GetOr([])| then Err(LengthMismatch) else Ok(Invalids(old(leaves), keys, values.GetOr([])))
      ensures !shape.indexed && |keys| == |values.GetOr([])| < TWO32 ==> Value() == AddEach(shape, old(Value()), keys, Some(values.GetOr([])))
    {
      hide IndexedOk, AddEach, Raise, Decode, Numbers, KeysIndexed, BatchLeaves, Invalids, Wide;
      ghost var was := Value();
      if shape.indexed {
        if values.Some? {
          return Err(ValueNotAllowed);
        }
        if Wide(shape) && IndexedOk(was) && |leaves| + |keys| < TWO32 {
          SequentialCount(was);
          IndexedBatchIsEach(shape, was, keys);
          AddEachIndexed(shape, was, keys);
          RaiseFits(shape, was.index, |keys|);
        }
        var invalids := AddIndexedBatch(keys);
        return Ok(invalids);
      }
      if |keys| != |values.GetOr([])| {
        return Err(LengthMismatch);
      }
      var invalids := AddWeightedBatch(keys, values);
      return Ok(invalids);
    }

    /** Imports the leaves of a dump into an empty tree.  In a numbered census every key then
        resolves and the counter is right; in a weighted one the weight is, but the counter
        stays. */
    method ImportDump(dump: map<Bytes, Bytes>) returns (err: Option<Error>)
      requires Valid()
      modifies this
      ensures Valid()
      ensures old(leaves) != map[] ==> err == Some(TreeNotEmpty) && Value() == old(Value())
      ensures old(leaves) == map[] ==> err.None? && leaves == dump
      ensures old(leaves) == map[] && shape.indexed && old(keyIndex) == map[] && EightBytes(dump) ==>
                Resolves(leaves, keyIndex)
      ensures old(leaves) == map[] && shape.indexed && old(Decode(index)) == 0 && |dump| < TWO32 && Wide(shape) ==>
                Decode(index) == |leaves| && (Numbered(dump) && old(keyIndex) == map[] ==> IndexedOk(Value()))
      ensures old(leaves) == map[] && !shape.indexed ==> Value() == Imported(shape, old(Value()), dump)
      ensures old(leaves) == map[] && !shape.indexed && old(WeightedOk(shape, Value())) ==>
                (WeightedOk(shape, Value()) <==> |dump| % Pow256(shape.hashLen) == 0)
    {
      if leaves != map[] {
        return Some(TreeNotEmpty);
      }
      leaves := dump;
      if shape.indexed {
        FillKeyToIndex();
      } else {
        var added := WeighLeaves();
        if WeightedOk(shape, old(Value())) {
          ImportLeavesCounter(shape, old(Value()), dump);
        }
        EncodedWeight(shape, Decode(weight), added);
        UpdateWeight(Encode(shape.hashLen, added));
      }
      return None;
    }

    method FillKeyToIndex()
      requires Valid()
      modifies this`keyIndex, this`index
      ensures Valid()
      ensures old(keyIndex) == map[] && EightBytes(leaves) ==> Resolves(leaves, keyIndex)
      ensures old(Decode(index)) == 0 && |leaves| < TWO32 && Wide(shape) ==> Decode(index) == |leaves|
    {
      hide Decode, Raise, EightBytes, ResolvesBut, Resolves, Eight;
      NoneResolved(leaves);
      var rest, count := leaves.Keys, 0;
      while rest != {}
        invariant rest <= leaves.Keys && count + |rest| == |leaves| && index == old(index)
        invariant old(keyIndex) == map[] && EightBytes(leaves) ==> ResolvesBut(leaves, keyIndex, rest)
        decreases rest
      {
        var leaf :| leaf in rest;
        if EightBytes(leaves) && ResolvesBut(leaves, keyIndex, rest) {
          OneMoreResolved(leaves, keyIndex, rest, leaf);
        }
        keyIndex := keyIndex[leaves[leaf] := Eight(leaf)];
        rest, count := rest - {leaf}, count + 1;
      }
      AllResolved(leaves, keyIndex);
      if Decode(index) == 0 && |leaves| < TWO32 && Wide(shape) {
        RaiseFits(shape, 0, |leaves|);
      }
      var _ := UpdateIndex((count - Decode(index) % TWO32) % TWO32);
    }

    method WeighLeaves() returns (added: nat)
      ensures added == LeafTotal(leaves)
    {
      assert LeafTotal(map[]) == 0;
      hide Decode, LeafTotal;
      added := 0;
      var rest := leaves.Keys;
      ghost var done: map<Bytes, Bytes> := map[];
      while rest != {}
        invariant rest <= leaves.Keys && done == leaves - rest
        invariant added == LeafTotal(done)
        decreases rest
      {
        var leaf :| leaf in rest;
        LeafWeightAdded(done, leaf, leaves[leaf]);
        rest, added, done := rest - {leaf}, added + Decode(leaves[leaf]), done[leaf := leaves[leaf]];
      }
      assert done == leaves;
    }
  }

  lemma SequentialCount(s: Store)
    requires IndexedOk(s)
    ensures s.index == |s.leaves|
  {
  }

  lemma EncodedWeight(shape: Shape, weight: nat, added: nat)
    ensures Raise(shape, weight, Decode(Encode(shape.hashLen, added))) == Raise(shape, weight, added)
  {
    DecodeEncode(shape.hashLen, added);
    ModAdd(weight, added, Pow256(shape.hashLen));
  }
}
