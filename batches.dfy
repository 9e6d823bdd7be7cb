/**
 * Nested batches (temporal_policies/utils/utils.py): trees of dicts, lists and
 * tuples whose leaves are torch tensors, numpy arrays or other values, the
 * structure-preserving maps over them, `contains_tensors`, and the dotted-path
 * lookup `fetch_from_dict`.
 *
 * Tensor and array operations (`.to(device)`, `torch.from_numpy`, `.numpy()`,
 * `expand_dims`, `squeeze`, indexing and slicing) are not modelled: each map
 * takes the leaf operation it applies as a function parameter.
 */
module Batches {
  import opened Wrappers
  import Strings

  /** A leaf of a batch: a tensor, an array, or a value of any other type. */
  datatype Leaf<T, A, O> = Tensor(t: T) | Array(a: A) | Other(o: O)

  /** A nested batch. Python dicts keep insertion order; this map does not. */
  datatype Batch<T, A, O> =
    | Dict(m: map<string, Batch<T, A, O>>)
    | List(s: seq<Batch<T, A, O>>)
    | Tuple(s: seq<Batch<T, A, O>>)
    | Item(leaf: Leaf<T, A, O>)

  /** One step of a path into a batch: a dict key or a sequence position. */
  datatype Step = Key(k: string) | Index(i: int)

  /**
   * The node reached by following `p` from `b`, if any. Tuples are entered
   * only when `intoTuples` holds.
   */
  function At<T, A, O>(b: Batch<T, A, O>, p: seq<Step>, intoTuples: bool): Option<Batch<T, A, O>>
    decreases |p|
  {
    if p == [] then Some(b)
    else match b
      case Dict(m) =>
        if p[0].Key? && p[0].k in m then At(m[p[0].k], p[1..], intoTuples) else None
      case List(s) =>
        if p[0].Index? && 0 <= p[0].i < |s| then At(s[p[0].i], p[1..], intoTuples) else None
      case Tuple(s) =>
        if intoTuples && p[0].Index? && 0 <= p[0].i < |s| then At(s[p[0].i], p[1..], intoTuples) else None
      case Item(_) => None
  }

  /**
   * `r` has the shape of `b` with every tuple turned into a list: the same
   * dict keys, the same sequence lengths, and a leaf wherever `b` has one.
   */
  ghost predicate Reshaped<T, A, O>(b: Batch<T, A, O>, r: Batch<T, A, O>)
  {
    match b
    case Dict(m) =>
      r.Dict? && r.m.Keys == m.Keys && forall k :: k in m ==> Reshaped(m[k], r.m[k])
    case List(s) =>
      r.List? && |r.s| == |s| && forall i :: 0 <= i < |s| ==> Reshaped(s[i], r.s[i])
    case Tuple(s) =>
      r.List? && |r.s| == |s| && forall i :: 0 <= i < |s| ==> Reshaped(s[i], r.s[i])
    case Item(_) => r.Item?
  }

  /**
   * The recursion shared by to_device, to_tensor, to_np, unsqueeze, squeeze
   * and get_from_batch: dicts and lists are rebuilt, tuples become lists, and
   * `f` is applied to each leaf.
   */
  function MapLeaves<T, A, O>(b: Batch<T, A, O>, f: Leaf<T, A, O> -> Leaf<T, A, O>): (r: Batch<T, A, O>)
    ensures Reshaped(b, r)
  {
    match b
    case Dict(m) => Dict(map k | k in m :: MapLeaves(m[k], f))
    case List(s) => List(seq(|s|, i requires 0 <= i < |s| => MapLeaves(s[i], f)))
    case Tuple(s) => List(seq(|s|, i requires 0 <= i < |s| => MapLeaves(s[i], f)))
    case Item(l) => Item(f(l))
  }

  /**
   * Along any path, the mapped batch has a node exactly where the original
   * has one, and each leaf `l` of the original becomes the leaf `f(l)`.
   */
  lemma {:induction false} MapLeavesAt<T, A, O>(b: Batch<T, A, O>, f: Leaf<T, A, O> -> Leaf<T, A, O>, p: seq<Step>)
    ensures At(MapLeaves(b, f), p, true).Some? <==> At(b, p, true).Some?
    ensures forall l :: At(b, p, true) == Some(Item(l)) ==> At(MapLeaves(b, f), p, true) == Some(Item(f(l)))
    decreases |p|
  {
    if p != [] {
      match b
      case Dict(m) =>
        if p[0].Key? && p[0].k in m {
          MapLeavesAt(m[p[0].k], f, p[1..]);
        }
      case List(s) =>
        if p[0].Index? && 0 <= p[0].i < |s| {
          MapLeavesAt(s[p[0].i], f, p[1..]);
        }
      case Tuple(s) =>
        if p[0].Index? && 0 <= p[0].i < |s| {
          MapLeavesAt(s[p[0].i], f, p[1..]);
        }
      case Item(_) =>
    }
  }

  /** The leaf rule of `to_device`: a tensor is moved to `device`, any other leaf is kept. */
  function ToDeviceLeaf<T, A, O, D>(device: D, moveTo: (T, D) -> T): Leaf<T, A, O> -> Leaf<T, A, O>
  {
    (l: Leaf<T, A, O>) => if l.Tensor? then Tensor(moveTo(l.t, device)) else l
  }

  /** `to_device`: tensors are moved to `device`; every other leaf is kept. */
  function ToDevice<T, A, O, D>(b: Batch<T, A, O>, device: D, moveTo: (T, D) -> T): (r: Batch<T, A, O>)
    ensures Reshaped(b, r)
    ensures ContainsTensors(b) ==> ContainsTensors(r)
  {
    var f := ToDeviceLeaf(device, moveTo);
    KeepsTensors(b, f);
    MapLeaves(b, f)
  }

  /** Each tensor leaf of `to_device`'s result is the original moved to `device`; other leaves are kept. */
  lemma ToDeviceAt<T, A, O, D>(b: Batch<T, A, O>, device: D, moveTo: (T, D) -> T, p: seq<Step>, l: Leaf<T, A, O>)
    requires At(b, p, true) == Some(Item(l))
    ensures l.Tensor? ==> At(ToDevice(b, device, moveTo), p, true) == Some(Item(Tensor(moveTo(l.t, device))))
    ensures !l.Tensor? ==> At(ToDevice(b, device, moveTo), p, true) == Some(Item(l))
  {
    var f := ToDeviceLeaf(device, moveTo);
    assert ToDevice(b, device, moveTo) == MapLeaves(b, f);
    MapLeavesAt(b, f, p);
    if l.Tensor? {
      assert f(l) == Tensor(moveTo(l.t, device));
    } else {
      assert f(l) == l;
    }
  }

  /** The leaf rule of `to_tensor`: an array becomes a tensor, any other leaf is kept. */
  function ToTensorLeaf<T, A, O>(fromNumpy: A -> T): Leaf<T, A, O> -> Leaf<T, A, O>
  {
    (l: Leaf<T, A, O>) => if l.Array? then Tensor(fromNumpy(l.a)) else l
  }

  /** `to_tensor`: arrays become tensors (`torch.from_numpy`); other leaves are kept. */
  function ToTensor<T, A, O>(b: Batch<T, A, O>, fromNumpy: A -> T): (r: Batch<T, A, O>)
    ensures Reshaped(b, r)
    ensures ContainsTensors(b) ==> ContainsTensors(r)
  {
    var f := ToTensorLeaf(fromNumpy);
    KeepsTensors(b, f);
    MapLeaves(b, f)
  }

  /** Each array leaf of the input is a tensor leaf of `to_tensor`'s result; other leaves are kept. */
  lemma ToTensorAt<T, A, O>(b: Batch<T, A, O>, fromNumpy: A -> T, p: seq<Step>, l: Leaf<T, A, O>)
    requires At(b, p, true) == Some(Item(l))
    ensures l.Array? ==> At(ToTensor(b, fromNumpy), p, true) == Some(Item(Tensor(fromNumpy(l.a))))
    ensures !l.Array? ==> At(ToTensor(b, fromNumpy), p, true) == Some(Item(l))
  {
    var f := ToTensorLeaf(fromNumpy);
    assert ToTensor(b, fromNumpy) == MapLeaves(b, f);
    MapLeavesAt(b, f, p);
    if l.Array? {
      assert f(l) == Tensor(fromNumpy(l.a));
    } else {
      assert f(l) == l;
    }
  }

  /** The leaf rule of `to_np`: a tensor becomes an array, any other leaf is kept. */
  function ToNpLeaf<T, A, O>(toNumpy: T -> A): Leaf<T, A, O> -> Leaf<T, A, O>
  {
    (l: Leaf<T, A, O>) => if l.Tensor? then Array(toNumpy(l.t)) else l
  }

  /** `to_np`: tensors become arrays (`.detach().cpu().numpy()`); no tensor is left. */
  function ToNp<T, A, O>(b: Batch<T, A, O>, toNumpy: T -> A): (r: Batch<T, A, O>)
    ensures Reshaped(b, r)
    ensures !ContainsTensors(r)
  {
    var f := ToNpLeaf(toNumpy);
    DropsTensors(b, f);
    MapLeaves(b, f)
  }

  /** Each tensor leaf of the input is an array leaf of `to_np`'s result; other leaves are kept. */
  lemma ToNpAt<T, A, O>(b: Batch<T, A, O>, toNumpy: T -> A, p: seq<Step>, l: Leaf<T, A, O>)
    requires At(b, p, true) == Some(Item(l))
    ensures l.Tensor? ==> At(ToNp(b, toNumpy), p, true) == Some(Item(Array(toNumpy(l.t))))
    ensures !l.Tensor? ==> At(ToNp(b, toNumpy), p, true) == Some(Item(l))
  {
    var f := ToNpLeaf(toNumpy);
    assert ToNp(b, toNumpy) == MapLeaves(b, f);
    MapLeavesAt(b, f, p);
    if l.Tensor? {
      assert f(l) == Array(toNumpy(l.t));
    } else {
      assert f(l) == l;
    }
  }

  /** The leaf rule of `unsqueeze`: arrays and tensors gain dimension `dim`, other leaves are kept. */
  function UnsqueezeLeaf<T, A, O>(dim: int, expandDims: (A, int) -> A, unsqueezeT: (T, int) -> T): Leaf<T, A, O> -> Leaf<T, A, O>
  {
    (l: Leaf<T, A, O>) =>
      match l
      case Array(a) => Array(expandDims(a, dim))
      case Tensor(t) => Tensor(unsqueezeT(t, dim))
      case Other(_) => l
  }

  /** `unsqueeze`: arrays get `np.expand_dims(a, dim)`, tensors `t.unsqueeze(dim)`. */
  function Unsqueeze<T, A, O>(b: Batch<T, A, O>, dim: int, expandDims: (A, int) -> A, unsqueezeT: (T, int) -> T): (r: Batch<T, A, O>)
    ensures Reshaped(b, r)
    ensures ContainsTensors(b) ==> ContainsTensors(r)
  {
    var f := UnsqueezeLeaf(dim, expandDims, unsqueezeT);
    KeepsTensors(b, f);
    MapLeaves(b, f)
  }

  /** Each array or tensor leaf of `unsqueeze`'s result has gained dimension `dim`; other leaves are kept. */
  lemma UnsqueezeAt<T, A, O>(b: Batch<T, A, O>, dim: int, expandDims: (A, int) -> A, unsqueezeT: (T, int) -> T, p: seq<Step>, l: Leaf<T, A, O>)
    requires At(b, p, true) == Some(Item(l))
    ensures l.Array? ==> At(Unsqueeze(b, dim, expandDims, unsqueezeT), p, true) == Some(Item(Array(expandDims(l.a, dim))))
    ensures l.Tensor? ==> At(Unsqueeze(b, dim, expandDims, unsqueezeT), p, true) == Some(Item(Tensor(unsqueezeT(l.t, dim))))
    ensures l.Other? ==> At(Unsqueeze(b, dim, expandDims, unsqueezeT), p, true) == Some(Item(l))
  {
    var f := UnsqueezeLeaf(dim, expandDims, unsqueezeT);
    assert Unsqueeze(b, dim, expandDims, unsqueezeT) == MapLeaves(b, f);
    MapLeavesAt(b, f, p);
    match l
    case Array(a) => assert f(l) == Array(expandDims(a, dim));
    case Tensor(t) => assert f(l) == Tensor(unsqueezeT(t, dim));
    case Other(_) => assert f(l) == l;
  }

  /** The leaf rule of `squeeze`: arrays and tensors lose dimension `dim`, other leaves are kept. */
  function SqueezeLeaf<T, A, O>(dim: int, squeezeA: (A, int) -> A, squeezeT: (T, int) -> T): Leaf<T, A, O> -> Leaf<T, A, O>
  {
    (l: Leaf<T, A, O>) =>
      match l
      case Array(a) => Array(squeezeA(a, dim))
      case Tensor(t) => Tensor(squeezeT(t, dim))
      case Other(_) => l
  }

  /** `squeeze`: arrays get `np.squeeze(a, dim)`, tensors `t.squeeze(dim)`. */
  function Squeeze<T, A, O>(b: Batch<T, A, O>, dim: int, squeezeA: (A, int) -> A, squeezeT: (T, int) -> T): (r: Batch<T, A, O>)
    ensures Reshaped(b, r)
    ensures ContainsTensors(b) ==> ContainsTensors(r)
  {
    var f := SqueezeLeaf(dim, squeezeA, squeezeT);
    KeepsTensors(b, f);
    MapLeaves(b, f)
  }

  /** Each array or tensor leaf of `squeeze`'s result has lost dimension `dim`; other leaves are kept. */
  lemma SqueezeAt<T, A, O>(b: Batch<T, A, O>, dim: int, squeezeA: (A, int) -> A, squeezeT: (T, int) -> T, p: seq<Step>, l: Leaf<T, A, O>)
    requires At(b, p, true) == Some(Item(l))
    ensures l.Array? ==> At(Squeeze(b, dim, squeezeA, squeezeT), p, true) == Some(Item(Array(squeezeA(l.a, dim))))
    ensures l.Tensor? ==> At(Squeeze(b, dim, squeezeA, squeezeT), p, true) == Some(Item(Tensor(squeezeT(l.t, dim))))
    ensures l.Other? ==> At(Squeeze(b, dim, squeezeA, squeezeT), p, true) == Some(Item(l))
  {
    var f := SqueezeLeaf(dim, squeezeA, squeezeT);
    assert Squeeze(b, dim, squeezeA, squeezeT) == MapLeaves(b, f);
    MapLeavesAt(b, f, p);
    match l
    case Array(a) => assert f(l) == Array(squeezeA(a, dim));
    case Tensor(t) => assert f(l) == Tensor(squeezeT(t, dim));
    case Other(_) => assert f(l) == l;
  }

  /** Indexing and slicing of array and tensor leaves, used by `get_from_batch`. */
  datatype Indexing<!T, !A> = Indexing(
    indexA: (A, int) -> A, sliceA: (A, int, int) -> A,
    indexT: (T, int) -> T, sliceT: (T, int, int) -> T)

  /** The leaf rule of `get_from_batch`: `x[start]` when `end` is None, `x[start:end]` otherwise. */
  function GetFromLeaf<T, A, O>(l: Leaf<T, A, O>, start: int, end: Option<int>, ix: Indexing<T, A>): Leaf<T, A, O>
  {
    match l
    case Array(a) => Array(if end.None? then ix.indexA(a, start) else ix.sliceA(a, start, end.value))
    case Tensor(t) => Tensor(if end.None? then ix.indexT(t, start) else ix.sliceT(t, start, end.value))
    case Other(_) => l
  }

  /**
   * `get_from_batch`: every array or tensor leaf is indexed at `start` when
   * `end` is None and sliced `[start:end]` otherwise; other leaves are kept.
   */
  function GetFromBatch<T, A, O>(b: Batch<T, A, O>, start: int, end: Option<int>, ix: Indexing<T, A>): (r: Batch<T, A, O>)
    ensures Reshaped(b, r)
    ensures ContainsTensors(b) ==> ContainsTensors(r)
  {
    var f := GetFromLeafFn(start, end, ix);
    KeepsTensors(b, f);
    MapLeaves(b, f)
  }

  function GetFromLeafFn<T, A, O>(start: int, end: Option<int>, ix: Indexing<T, A>): Leaf<T, A, O> -> Leaf<T, A, O>
  {
    l => GetFromLeaf(l, start, end, ix)
  }

  /** Each leaf of `get_from_batch`'s result is the original leaf indexed or sliced. */
  lemma GetFromBatchAt<T, A, O>(b: Batch<T, A, O>, start: int, end: Option<int>, ix: Indexing<T, A>, p: seq<Step>, l: Leaf<T, A, O>)
    requires At(b, p, true) == Some(Item(l))
    ensures l.Array? && end.None? ==> At(GetFromBatch(b, start, end, ix), p, true) == Some(Item(Array(ix.indexA(l.a, start))))
    ensures l.Array? && end.Some? ==> At(GetFromBatch(b, start, end, ix), p, true) == Some(Item(Array(ix.sliceA(l.a, start, end.value))))
    ensures l.Tensor? && end.None? ==> At(GetFromBatch(b, start, end, ix), p, true) == Some(Item(Tensor(ix.indexT(l.t, start))))
    ensures l.Tensor? && end.Some? ==> At(GetFromBatch(b, start, end, ix), p, true) == Some(Item(Tensor(ix.sliceT(l.t, start, end.value))))
    ensures l.Other? ==> At(GetFromBatch(b, start, end, ix), p, true) == Some(Item(l))
  {
    var f := GetFromLeafFn(start, end, ix);
    assert GetFromBatch(b, start, end, ix) == MapLeaves(b, f);
    MapLeavesAt(b, f, p);
    assert f(l) == GetFromLeaf(l, start, end, ix);
  }

  /**
   * `contains_tensors`: dicts and lists are searched, a tensor leaf answers
   * true, and everything else, tuples included, answers false.
   */
  predicate ContainsTensors<T, A, O>(b: Batch<T, A, O>)
  {
    match b
    case Dict(m) => exists k :: k in m && ContainsTensors(m[k])
    case List(s) => exists i :: 0 <= i < |s| && ContainsTensors(s[i])
    case Tuple(_) => false
    case Item(l) => l.Tensor?
  }

  /** A tensor leaf sits at the end of `p`, which enters no tuple. */
  ghost predicate TensorAt<T, A, O>(b: Batch<T, A, O>, p: seq<Step>)
  {
    var n := At(b, p, false);
    n.Some? && n.value.Item? && n.value.leaf.Tensor?
  }

  /**
   * `contains_tensors` holds exactly when a tensor leaf can be reached
   * through dicts and lists alone.
   */
  lemma {:induction false} ContainsTensorsIffReachable<T, A, O>(b: Batch<T, A, O>)
    ensures ContainsTensors(b) <==> exists p :: TensorAt(b, p)
  {
    if ContainsTensors(b) {
      var p := ReachableTensor(b);
      assert TensorAt(b, p);
    }
    if exists p :: TensorAt(b, p) {
      var p :| TensorAt(b, p);
      TensorAtContains(b, p);
    }
  }

  /** A path to a tensor leaf, for a batch that contains one. */
  lemma {:induction false} ReachableTensor<T, A, O>(b: Batch<T, A, O>) returns (p: seq<Step>)
    requires ContainsTensors(b)
    ensures TensorAt(b, p)
  {
    match b
    case Dict(m) =>
      var k :| k in m && ContainsTensors(m[k]);
      var q := ReachableTensor(m[k]);
      p := [Key(k)] + q;
      assert p[1..] == q;
    case List(s) =>
      var i :| 0 <= i < |s| && ContainsTensors(s[i]);
      var q := ReachableTensor(s[i]);
      p := [Index(i)] + q;
      assert p[1..] == q;
    case Item(_) =>
      p := [];
  }

  /** A tensor leaf reached through dicts and lists makes `contains_tensors` true. */
  lemma {:induction false} TensorAtContains<T, A, O>(b: Batch<T, A, O>, p: seq<Step>)
    requires TensorAt(b, p)
    ensures ContainsTensors(b)
    decreases |p|
  {
    if p != [] {
      match b
      case Dict(m) =>
        TensorAtContains(m[p[0].k], p[1..]);
      case List(s) =>
        TensorAtContains(s[p[0].i], p[1..]);
    }
  }

  /** A leaf map that keeps every tensor a tensor keeps `contains_tensors` true. */
  lemma {:induction false} KeepsTensors<T, A, O>(b: Batch<T, A, O>, f: Leaf<T, A, O> -> Leaf<T, A, O>)
    requires forall l: Leaf<T, A, O> :: l.Tensor? ==> f(l).Tensor?
    ensures ContainsTensors(b) ==> ContainsTensors(MapLeaves(b, f))
  {
    if ContainsTensors(b) {
      match b
      case Dict(m) =>
        var k :| k in m && ContainsTensors(m[k]);
        KeepsTensors(m[k], f);
        assert MapLeaves(b, f).m[k] == MapLeaves(m[k], f);
      case List(s) =>
        var i :| 0 <= i < |s| && ContainsTensors(s[i]);
        KeepsTensors(s[i], f);
        assert MapLeaves(b, f).s[i] == MapLeaves(s[i], f);
      case Item(_) =>
    }
  }

  /** A leaf map that never yields a tensor leaves no tensor behind. */
  lemma {:induction false} DropsTensors<T, A, O>(b: Batch<T, A, O>, f: Leaf<T, A, O> -> Leaf<T, A, O>)
    requires forall l: Leaf<T, A, O> :: !f(l).Tensor?
    ensures !ContainsTensors(MapLeaves(b, f))
  {
    match b
    case Dict(m) =>
      var r := MapLeaves(b, f);
      forall k | k in r.m
        ensures !ContainsTensors(r.m[k])
      {
        DropsTensors(m[k], f);
      }
    case List(s) =>
      var r := MapLeaves(b, f);
      forall i | 0 <= i < |r.s|
        ensures !ContainsTensors(r.s[i])
      {
        DropsTensors(s[i], f);
      }
    case Tuple(s) =>
      var r := MapLeaves(b, f);
      forall i | 0 <= i < |r.s|
        ensures !ContainsTensors(r.s[i])
      {
        DropsTensors(s[i], f);
      }
    case Item(_) =>
  }

  // ---------------------------------------------------------------------
  // fetch_from_dict
  // ---------------------------------------------------------------------

  /** Why a dotted path could not be resolved. */
  datatype FetchError =
    | KeyError(key: string)     // the dict has no such key
    | NotADict(key: string)     // the node indexed by this key is not a dict

  /** The `keys` argument: one key, or a list or tuple of keys. */
  datatype Keys = OneKey(key: string) | KeyList(keys: seq<string>)

  /** The result: a bare value when exactly one key was given, else a list. */
  datatype Fetched<B> = Single(value: B) | Several(values: seq<B>)

  function KeySeq(keys: Keys): seq<string>
  {
    match keys
    case OneKey(k) => [k]
    case KeyList(ks) => ks
  }

  /** `node[key]` for a nested dict. */
  function Lookup<T, A, O>(b: Batch<T, A, O>, key: string): Result<Batch<T, A, O>, FetchError>
  {
    if !b.Dict? then Err(NotADict(key))
    else if key in b.m then Ok(b.m[key])
    else Err(KeyError(key))
  }

  /** Looks up the parts of a dotted key one after the other. */
  function Resolve<T, A, O>(b: Batch<T, A, O>, parts: seq<string>): Result<Batch<T, A, O>, FetchError>
  {
    if parts == [] then Ok(b)
    else
      var next :- Lookup(b, parts[0]);
      Resolve(next, parts[1..])
  }

  /** The dict-key path that spells the given parts. */
  function KeyPath(parts: seq<string>): (p: seq<Step>)
    ensures |p| == |parts| && forall i :: 0 <= i < |p| ==> p[i] == Key(parts[i])
  {
    if parts == [] then [] else [Key(parts[0])] + KeyPath(parts[1..])
  }

  /**
   * Resolving "a.b.c" succeeds exactly when `d["a"]["b"]["c"]` exists, and
   * yields that node.
   */
  lemma {:induction false} ResolveAt<T, A, O>(b: Batch<T, A, O>, parts: seq<string>)
    ensures Resolve(b, parts).Ok? <==> At(b, KeyPath(parts), true).Some?
    ensures Resolve(b, parts).Ok? ==> At(b, KeyPath(parts), true) == Some(Resolve(b, parts).value)
  {
    if parts != [] {
      var p := KeyPath(parts);
      assert p[1..] == KeyPath(parts[1..]);
      if b.Dict? && parts[0] in b.m {
        ResolveAt(b.m[parts[0]], parts[1..]);
      }
    }
  }

  /** Whether every key of `ks` resolves in `data`. */
  ghost predicate AllResolve<T, A, O>(data: Batch<T, A, O>, ks: seq<string>)
  {
    forall i :: 0 <= i < |ks| ==> Resolve(data, Strings.Split(ks[i], '.')).Ok?
  }

  /**
   * `fetch_from_dict(data_dict, keys)`: each key is split at '.', and the
   * parts are looked up one level at a time; the first failing lookup is
   * the error raised.
   */
  method FetchFromDict<T, A, O>(data: Batch<T, A, O>, keys: Keys) returns (r: Result<Fetched<Batch<T, A, O>>, FetchError>)
    ensures r.Ok? <==> AllResolve(data, KeySeq(keys))
    ensures r.Ok? && |KeySeq(keys)| == 1 ==>
      r.value == Single(Resolve(data, Strings.Split(KeySeq(keys)[0], '.')).value)
    ensures r.Ok? && |KeySeq(keys)| != 1 ==>
      r.value.Several? && |r.value.values| == |KeySeq(keys)| &&
      forall i :: 0 <= i < |KeySeq(keys)| ==>
        r.value.values[i] == Resolve(data, Strings.Split(KeySeq(keys)[i], '.')).value
    ensures r.Err? ==>
      exists i :: 0 <= i < |KeySeq(keys)| &&
        Resolve(data, Strings.Split(KeySeq(keys)[i], '.')) == Err(r.error) &&
        (forall j :: 0 <= j < i ==> Resolve(data, Strings.Split(KeySeq(keys)[j], '.')).Ok?)
  {
    var ks := KeySeq(keys);
    var outputs: seq<Batch<T, A, O>> := [];
    var n := 0;
    while n < |ks|
      invariant 0 <= n <= |ks|
      invariant |outputs| == n
      invariant forall i :: 0 <= i < n ==> Resolve(data, Strings.Split(ks[i], '.')) == Ok(outputs[i])
    {
      var all := Strings.Split(ks[n], '.');
      var keyParts := all;
      var current := data;
      while |keyParts| > 1
        invariant 1 <= |keyParts|
        invariant Resolve(data, all) == Resolve(current, keyParts)
      {
        var next := Lookup(current, keyParts[0]);
        if next.Err? {
          return Err(next.error);
        }
        current := next.value;
        keyParts := keyParts[1..];
      }
      var last := Lookup(current, keyParts[0]);
      assert Resolve(current, keyParts) == last;
      if last.Err? {
        return Err(last.error);
      }
      outputs := outputs + [last.value];
      n := n + 1;
    }
    if |outputs| == 1 {
      r := Ok(Single(outputs[0]));
    } else {
      r := Ok(Several(outputs));
    }
  }
}
