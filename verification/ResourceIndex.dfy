/**
 The static resource container (`mcpservice/static_resources.go`): a slice of resources with
 a URI index beside it, updated by append, overwrite, swap-delete and wholesale
 replacement. It is a plain map from URI to resource for as long as no replacement has a
 repeated URI behind a single one, and only then.
 */
module ResourceIndex {
  import opened Wrappers

  type Uri = string

  datatype Variant = Variant(text: string, blob: seq<bv8>, mimeType: string)

  datatype Resource = Resource(uri: Uri, name: string, desc: string, mimeType: string, variants: seq<Variant>)

  datatype Table = Table(resources: seq<Resource>, index: map<Uri, nat>)

  const EMPTY := Table([], map[])

  // ----- the operations on the slice and its index -----

  function Add(t: Table, r: Resource): Table {
    if r.uri == "" || r.uri in t.index then t
    else Table(t.resources + [r], t.index[r.uri := |t.resources|])
  }

  function Upsert(t: Table, r: Resource): Table {
    if r.uri == "" then t
    else if r.uri in t.index && t.index[r.uri] < |t.resources|
    then t.(resources := t.resources[t.index[r.uri] := r])
    else Table(t.resources + [r], t.index[r.uri := |t.resources|])
  }

  /** Swap-delete: the last element takes the removed one's place. */
  function Remove(t: Table, uri: Uri): Table {
    if uri in t.index && t.index[uri] < |t.resources| then
      var idx, last := t.index[uri], |t.resources| - 1;
      var moved := t.resources[last];
      Table(t.resources[idx := moved][..last], t.index[moved.uri := idx] - {uri})
    else t
  }

  /** Every URI to its last position. */
  function BuildIndex(rs: seq<Resource>): map<Uri, nat> {
    if rs == [] then map[] else BuildIndex(rs[..|rs| - 1])[rs[|rs| - 1].uri := |rs| - 1]
  }

  function Named(rs: seq<Resource>): seq<Resource> {
    if rs == [] then []
    else Named(rs[..|rs| - 1]) + if rs[|rs| - 1].uri != "" then [rs[|rs| - 1]] else []
  }

  function Replace(rs: seq<Resource>): Table {
    Table(Named(rs), BuildIndex(Named(rs)))
  }

  function Lookup(t: Table, uri: Uri): Option<Resource> {
    if uri in t.index && t.index[uri] < |t.resources| then Some(t.resources[t.index[uri]]) else None
  }

  // ----- the container, updated in place -----

  /** What a change announces: the list changed, the contents of this URI changed. */
  datatype Signals = Signals(list: bool, updated: bool)

  method EqualVariants(a: seq<Variant>, b: seq<Variant>) returns (eq: bool)
    ensures eq <==> a == b
  {
    if |a| != |b| {
      return false;
    }
    for i := 0 to |a|
      invariant a[..i] == b[..i]
    {
      if a[i].text != b[i].text || a[i].mimeType != b[i].mimeType || |a[i].blob| != |b[i].blob| {
        return false;
      }
      for j := 0 to |a[i].blob|
        invariant a[i].blob[..j] == b[i].blob[..j]
      {
        if a[i].blob[j] != b[i].blob[j] {
          return false;
        }
      }
      assert a[i].blob[..|a[i].blob|] == a[i].blob && b[i].blob[..|b[i].blob|] == b[i].blob;
      assert a[i] == b[i];
      assert a[..i + 1] == a[..i] + [a[i]] && b[..i + 1] == b[..i] + [b[i]];
    }
    assert a[..|a|] == a && b[..|b|] == b;
    eq := true;
  }

  method KeepNamed(rs: seq<Resource>) returns (nr: seq<Resource>)
    ensures nr == Named(rs)
  {
    nr := [];
    for i := 0 to |rs|
      invariant nr == Named(rs[..i])
    {
      assert rs[..i + 1][..i] == rs[..i];
      if rs[i].uri != "" {
        nr := nr + [rs[i]];
      }
    }
    assert rs[..|rs|] == rs;
  }

  method IndexOf(rs: seq<Resource>) returns (index: map<Uri, nat>)
    ensures index == BuildIndex(rs)
  {
    index := map[];
    for i := 0 to |rs|
      invariant index == BuildIndex(rs[..i])
    {
      assert rs[..i + 1][..i] == rs[..i];
      index := index[rs[i].uri := i];
    }
    assert rs[..|rs|] == rs;
  }

  /** The URIs only the first index has, each once; the index is ranged over in any order. */
  method Missing(before: map<Uri, nat>, after: map<Uri, nat>) returns (removed: seq<Uri>)
    ensures forall u :: u in removed <==> u in before && u !in after
    ensures forall i, j | 0 <= i < j < |removed| :: removed[i] != removed[j]
  {
    removed := [];
    var todo := before.Keys;
    while todo != {}
      invariant todo <= before.Keys
      invariant forall u :: u in removed <==> u in before.Keys - todo && u !in after
      invariant forall i, j | 0 <= i < j < |removed| :: removed[i] != removed[j]
    {
      var u :| u in todo;
      if u !in after {
        removed := removed + [u];
      }
      todo := todo - {u};
    }
  }

  class Container {
    var resources: seq<Resource>
    var uriSet: map<Uri, nat>
    var notifiers: set<Uri>   // URIs with a per-resource change notifier

    ghost function Contents(): Table
      reads this
    {
      Table(resources, uriSet)
    }

    /** Every index entry is in range and points at a resource with that URI. */
    ghost predicate Valid()
      reads this
    {
      Pointing(Contents())
    }

    constructor ()
      ensures Valid() && Contents() == EMPTY && notifiers == {}
    {
      resources, uriSet, notifiers := [], map[], {};
    }

    method Read(uri: Uri) returns (r: Option<seq<Variant>>)
      requires Valid()
      ensures r.Some? <==> Lookup(Contents(), uri).Some?
      ensures r.Some? ==> r.value == Lookup(Contents(), uri).value.variants
    {
      if uri !in uriSet {
        return None;
      }
      r := Some(resources[uriSet[uri]].variants);
    }

    method AddResource(r: Resource) returns (added: bool)
      requires Valid()
      modifies this
      ensures Valid() && notifiers == old(notifiers)
      ensures Contents() == Add(old(Contents()), r)
      ensures added == (r.uri != "" && r.uri !in old(uriSet))
    {
      if r.uri == "" {
        return false;
      }
      if r.uri in uriSet {
        return false;
      }
      resources := resources + [r];
      uriSet := uriSet[r.uri := |resources| - 1];
      added := true;
    }

    method UpsertResource(r: Resource) returns (created: bool, signals: Signals)
      requires Valid()
      modifies this
      ensures Valid() && notifiers == old(notifiers)
      ensures Contents() == Upsert(old(Contents()), r)
      ensures created == (r.uri != "" && r.uri !in old(uriSet))
      ensures r.uri != "" && !created ==>
        var prev := Lookup(old(Contents()), r.uri).value;
        && (signals.updated <==> prev.variants != r.variants)
        && (signals.list <==> prev.name != r.name || prev.desc != r.desc || prev.mimeType != r.mimeType)
      ensures created ==> signals.list && (signals.updated <==> r.variants != [])
      ensures r.uri == "" ==> !signals.list && !signals.updated
    {
      if r.uri == "" {
        return false, Signals(false, false);
      }
      if r.uri in uriSet {
        var idx := uriSet[r.uri];
        var prev := resources[idx];
        var metaChanged := prev.name != r.name || prev.desc != r.desc || prev.mimeType != r.mimeType;
        var same := EqualVariants(prev.variants, r.variants);
        resources := resources[idx := r];
        return false, Signals(metaChanged, !same);
      }
      resources := resources + [r];
      uriSet := uriSet[r.uri := |resources| - 1];
      return true, Signals(true, |r.variants| > 0);
    }

    method RemoveResource(uri: Uri) returns (removed: bool)
      requires Valid()
      modifies this
      ensures Valid() && notifiers == old(notifiers)
      ensures Contents() == Remove(old(Contents()), uri)
      ensures removed == (uri in old(uriSet))
    {
      RemoveKeepsPointing(Contents(), uri);
      if uri !in uriSet {
        return false;
      }
      var idx := uriSet[uri];
      var last := |resources| - 1;
      resources := resources[idx := resources[last]];
      uriSet := uriSet[resources[idx].uri := idx];
      resources := resources[..last];
      uriSet := uriSet - {uri};
      removed := true;
    }

    method ReplaceResources(rs: seq<Resource>) returns (removed: seq<Uri>)
      requires Valid()
      modifies this
      ensures Valid() && Contents() == Replace(rs)
      ensures forall u :: u in removed <==> u in old(uriSet) && u !in uriSet
      ensures forall i, j | 0 <= i < j < |removed| :: removed[i] != removed[j]
      ensures notifiers == old(notifiers) - set u | u in removed
    {
      var nr := KeepNamed(rs);
      var index := IndexOf(nr);
      removed := Missing(uriSet, index);
      resources := nr;
      uriSet := index;
      notifiers := notifiers - set u | u in removed;
      BuildIndexPoints(nr);
    }
  }

  // ----- invariants -----

  ghost predicate Pointing(t: Table) {
    forall u | u in t.index :: t.index[u] < |t.resources| && t.resources[t.index[u]].uri == u
  }

  /** The index is the exact inverse of the slice. */
  ghost predicate Exact(t: Table) {
    && Pointing(t)
    && forall i | 0 <= i < |t.resources| ::
         t.resources[i].uri != "" && t.resources[i].uri in t.index && t.index[t.resources[i].uri] == i
  }

  lemma {:induction false} RemoveKeepsPointing(t: Table, uri: Uri)
    requires Pointing(t)
    ensures Pointing(Remove(t, uri))
  {
    var t' := Remove(t, uri);
    if uri in t.index {
      var idx, last := t.index[uri], |t.resources| - 1;
      forall u | u in t'.index ensures t'.index[u] < |t'.resources| && t'.resources[t'.index[u]].uri == u {
        if u != t.resources[last].uri {
          assert t'.index[u] == t.index[u] && t.index[u] != last && t.index[u] != idx;
        }
      }
    }
  }

  lemma {:induction false} BuildIndexPoints(rs: seq<Resource>)
    ensures Pointing(Table(rs, BuildIndex(rs)))
    ensures forall i | 0 <= i < |rs| :: rs[i].uri in BuildIndex(rs) && i <= BuildIndex(rs)[rs[i].uri]
    decreases |rs|
  {
    if rs != [] {
      var before := rs[..|rs| - 1];
      BuildIndexPoints(before);
      forall u | u in BuildIndex(rs) ensures BuildIndex(rs)[u] < |rs| && rs[BuildIndex(rs)[u]].uri == u {
        if u != rs[|rs| - 1].uri {
          assert u in BuildIndex(before) && before[BuildIndex(before)[u]].uri == u;
        }
      }
      forall i | 0 <= i < |rs| ensures rs[i].uri in BuildIndex(rs) && i <= BuildIndex(rs)[rs[i].uri] {
        if i < |rs| - 1 {
          assert before[i] == rs[i];
        }
      }
    }
  }

  predicate DistinctUris(rs: seq<Resource>) {
    forall i, j | 0 <= i < j < |rs| :: rs[i].uri != rs[j].uri
  }

  lemma {:induction false} NamedHasNames(rs: seq<Resource>)
    ensures forall i | 0 <= i < |Named(rs)| :: Named(rs)[i].uri != ""
  {
    if rs != [] {
      NamedHasNames(rs[..|rs| - 1]);
    }
  }

  /** Replacement yields an exact index exactly when no non-blank URI is repeated. */
  lemma {:induction false} ReplaceExactIffDistinct(rs: seq<Resource>)
    ensures Exact(Replace(rs)) <==> DistinctUris(Named(rs))
  {
    var nr := Named(rs);
    NamedHasNames(rs);
    BuildIndexPoints(nr);
    if DistinctUris(nr) {
      forall i | 0 <= i < |nr| ensures BuildIndex(nr)[nr[i].uri] == i {
        var k := BuildIndex(nr)[nr[i].uri];
        assert nr[k].uri == nr[i].uri;
      }
    }
  }

  // ----- refinement of a plain map -----

  function AsMap(t: Table): (m: map<Uri, Resource>)
    requires Pointing(t)
  {
    map u | u in t.index :: t.resources[t.index[u]]
  }

  datatype Op = OpAdd(r: Resource) | OpUpsert(r: Resource) | OpRemove(uri: Uri) | OpReplace(rs: seq<Resource>)

  function Apply(t: Table, op: Op): Table {
    match op
    case OpAdd(r) => Add(t, r)
    case OpUpsert(r) => Upsert(t, r)
    case OpRemove(u) => Remove(t, u)
    case OpReplace(rs) => Replace(rs)
  }

  /** The last resource given for each URI that is not blank. */
  function LastOf(rs: seq<Resource>): map<Uri, Resource> {
    if rs == [] then map[]
    else
      var m, last := LastOf(rs[..|rs| - 1]), rs[|rs| - 1];
      if last.uri == "" then m else m[last.uri := last]
  }

  lemma {:induction false} LastOfNamed(rs: seq<Resource>)
    ensures LastOf(Named(rs)) == LastOf(rs)
  {
    if rs != [] {
      var before, last := rs[..|rs| - 1], rs[|rs| - 1];
      LastOfNamed(before);
      if last.uri != "" {
        assert (Named(before) + [last])[..|Named(before)|] == Named(before);
      } else {
        assert Named(rs) == Named(before);
      }
    }
  }

  /** What the operation does to a map. */
  function ApplyToMap(m: map<Uri, Resource>, op: Op): map<Uri, Resource> {
    match op
    case OpAdd(r) => if r.uri == "" || r.uri in m then m else m[r.uri := r]
    case OpUpsert(r) => if r.uri == "" then m else m[r.uri := r]
    case OpRemove(u) => m - {u}
    case OpReplace(rs) => LastOf(rs)
  }

  lemma {:induction false} ApplyKeepsPointing(t: Table, op: Op)
    requires Pointing(t)
    ensures Pointing(Apply(t, op))
  {
    match op
    case OpRemove(u) => RemoveKeepsPointing(t, u);
    case OpReplace(rs) => BuildIndexPoints(Named(rs));
    case _ =>
  }

  lemma {:induction false} BuildIndexIsLast(rs: seq<Resource>)
    requires Pointing(Table(rs, BuildIndex(rs))) && forall i | 0 <= i < |rs| :: rs[i].uri != ""
    ensures AsMap(Table(rs, BuildIndex(rs))) == LastOf(rs)
    decreases |rs|
  {
    if rs != [] {
      var before := rs[..|rs| - 1];
      BuildIndexPoints(before);
      BuildIndexIsLast(before);
      var m, m0 := AsMap(Table(rs, BuildIndex(rs))), AsMap(Table(before, BuildIndex(before)));
      forall u | u in m ensures u in LastOf(rs) && m[u] == LastOf(rs)[u] {
        if u != rs[|rs| - 1].uri {
          assert u in m0 && m[u] == m0[u];
        }
      }
      assert m.Keys == LastOf(rs).Keys;
    }
  }

  /** A slot the index does not lead to: its URI was stored again, or removed, elsewhere. */
  predicate Stale(t: Table, i: nat)
    requires i < |t.resources|
  {
    t.resources[i].uri !in t.index || t.index[t.resources[i].uri] != i
  }

  /** No stale slot follows a live one, so a swap-delete never moves a stale slot. */
  ghost predicate Safe(t: Table) {
    && Pointing(t)
    && forall i, j | 0 <= i < j < |t.resources| :: Stale(t, j) ==> Stale(t, i)
  }

  lemma {:induction false} ExactMeansNoneStale(t: Table)
    ensures Exact(t) <==> Pointing(t) && forall i | 0 <= i < |t.resources| :: t.resources[i].uri != "" && !Stale(t, i)
  {
  }

  lemma {:induction false} RemoveFromSlots(t: Table, uri: Uri, i: nat)
    requires Safe(t) && uri in t.index && i < |t.resources| - 1
    ensures var t' := Remove(t, uri);
      && |t'.resources| == |t.resources| - 1
      && (i == t.index[uri] ==> !Stale(t', i))
      && (i != t.index[uri] ==> t'.resources[i] == t.resources[i] && (Stale(t', i) <==> Stale(t, i)))
  {
    var idx, last := t.index[uri], |t.resources| - 1;
    assert !Stale(t, idx);
    assert idx < last ==> !Stale(t, last);
  }

  lemma {:induction false} RemoveKeepsSafe(t: Table, uri: Uri)
    requires Safe(t)
    ensures Safe(Remove(t, uri))
  {
    var t' := Remove(t, uri);
    RemoveKeepsPointing(t, uri);
    if uri in t.index {
      forall i, j | 0 <= i < j < |t'.resources| ensures Stale(t', j) ==> Stale(t', i) {
        RemoveFromSlots(t, uri, i);
        RemoveFromSlots(t, uri, j);
        assert !Stale(t, t.index[uri]) && (Stale(t, j) ==> Stale(t, i));
      }
    }
  }

  lemma {:induction false} RemoveIsMapRemove(t: Table, uri: Uri)
    requires Safe(t)
    ensures Pointing(Remove(t, uri)) && AsMap(Remove(t, uri)) == AsMap(t) - {uri}
  {
    RemoveKeepsPointing(t, uri);
    var t' := Remove(t, uri);
    if uri in t.index {
      var idx, last := t.index[uri], |t.resources| - 1;
      assert !Stale(t, idx) && (idx < last ==> !Stale(t, last));
      var m, m' := AsMap(t), AsMap(t');
      assert m'.Keys == m.Keys - {uri};
      forall u | u in m' ensures m'[u] == m[u] {
        if t.index[u] != last {
          assert t'.index[u] == t.index[u] && t'.resources[t.index[u]] == t.resources[t.index[u]];
        }
      }
    }
  }

  lemma {:induction false} RemoveKeepsExact(t: Table, uri: Uri)
    requires Exact(t)
    ensures Exact(Remove(t, uri))
  {
    var t' := Remove(t, uri);
    RemoveKeepsPointing(t, uri);
    if uri in t.index {
      forall i | 0 <= i < |t'.resources| ensures t'.resources[i].uri != "" && !Stale(t', i) {
        RemoveFromSlots(t, uri, i);
        assert !Stale(t, i);
      }
      ExactMeansNoneStale(t');
    }
  }

  lemma {:induction false} AppendIsMapUpdate(t: Table, r: Resource)
    requires Safe(t) && r.uri != "" && r.uri !in t.index
    ensures var t' := Table(t.resources + [r], t.index[r.uri := |t.resources|]);
      Safe(t') && AsMap(t') == AsMap(t)[r.uri := r] && (Exact(t) ==> Exact(t'))
  {
    var t' := Table(t.resources + [r], t.index[r.uri := |t.resources|]);
    assert forall i | 0 <= i < |t.resources| :: Stale(t', i) <==> Stale(t, i);
    assert !Stale(t', |t.resources|);
  }

  lemma {:induction false} OverwriteIsMapUpdate(t: Table, r: Resource)
    requires Safe(t) && r.uri != "" && r.uri in t.index
    ensures Safe(Upsert(t, r)) && AsMap(Upsert(t, r)) == AsMap(t)[r.uri := r] && (Exact(t) ==> Exact(Upsert(t, r)))
  {
    assert forall i | 0 <= i < |t.resources| :: Stale(Upsert(t, r), i) <==> Stale(t, i);
  }

  /** The resource's URI comes again further on. */
  predicate Recurs(rs: seq<Resource>, i: nat)
    requires i < |rs|
  {
    exists k :: i < k < |rs| && rs[k].uri == rs[i].uri
  }

  /** No resource whose URI comes again follows one whose URI does not; blank URIs do not matter. */
  predicate RepeatsComeFirst(rs: seq<Resource>) {
    var nr := Named(rs);
    forall i, j | 0 <= i < j < |nr| :: Recurs(nr, j) ==> Recurs(nr, i)
  }

  /** A replacement leaves a slot stale exactly when its URI comes again, and points past it. */
  lemma {:induction false} StaleIffRecurs(nr: seq<Resource>, i: nat)
    requires i < |nr|
    ensures Stale(Table(nr, BuildIndex(nr)), i) <==> Recurs(nr, i)
    ensures nr[i].uri in BuildIndex(nr) && i <= BuildIndex(nr)[nr[i].uri]
  {
    BuildIndexPoints(nr);
    var k := BuildIndex(nr)[nr[i].uri];
    assert k < |nr| && nr[k].uri == nr[i].uri;
  }

  lemma {:induction false} ReplaceIsSafeIff(rs: seq<Resource>)
    ensures Pointing(Replace(rs)) && AsMap(Replace(rs)) == LastOf(rs)
    ensures Safe(Replace(rs)) <==> RepeatsComeFirst(rs)
  {
    var nr := Named(rs);
    BuildIndexPoints(nr);
    NamedHasNames(rs);
    BuildIndexIsLast(nr);
    LastOfNamed(rs);
    forall i | 0 <= i < |nr| ensures Stale(Replace(rs), i) <==> Recurs(nr, i) {
      StaleIffRecurs(nr, i);
    }
  }

  lemma {:induction false} ApplyRefines(t: Table, op: Op)
    requires Safe(t) && (op.OpReplace? ==> RepeatsComeFirst(op.rs))
    ensures Safe(Apply(t, op)) && AsMap(Apply(t, op)) == ApplyToMap(AsMap(t), op)
  {
    match op
    case OpAdd(r) =>
      if r.uri != "" && r.uri !in t.index {
        AppendIsMapUpdate(t, r);
      }
    case OpUpsert(r) =>
      if r.uri != "" && r.uri !in t.index {
        AppendIsMapUpdate(t, r);
      } else if r.uri != "" {
        OverwriteIsMapUpdate(t, r);
      }
    case OpRemove(u) =>
      RemoveKeepsSafe(t, u);
      RemoveIsMapRemove(t, u);
    case OpReplace(rs) => ReplaceIsSafeIff(rs);
  }

  lemma {:induction false} ApplyKeepsExact(t: Table, op: Op)
    requires Exact(t) && (op.OpReplace? ==> DistinctUris(Named(op.rs)))
    ensures Exact(Apply(t, op))
  {
    match op
    case OpAdd(r) =>
      if r.uri != "" && r.uri !in t.index {
        AppendIsMapUpdate(t, r);
      }
    case OpUpsert(r) =>
      if r.uri != "" && r.uri !in t.index {
        AppendIsMapUpdate(t, r);
      } else if r.uri != "" {
        OverwriteIsMapUpdate(t, r);
      }
    case OpRemove(u) => RemoveKeepsExact(t, u);
    case OpReplace(rs) => ReplaceExactIffDistinct(rs);
  }

  function Run(t: Table, ops: seq<Op>): Table
    decreases |ops|
  {
    if ops == [] then t else Run(Apply(t, ops[0]), ops[1..])
  }

  function RunOnMap(m: map<Uri, Resource>, ops: seq<Op>): map<Uri, Resource>
    decreases |ops|
  {
    if ops == [] then m else RunOnMap(ApplyToMap(m, ops[0]), ops[1..])
  }

  lemma {:induction false} RunConcat(t: Table, m: map<Uri, Resource>, a: seq<Op>, b: seq<Op>)
    ensures Run(t, a + b) == Run(Run(t, a), b) && RunOnMap(m, a + b) == RunOnMap(RunOnMap(m, a), b)
    decreases |a|
  {
    if a == [] {
      assert a + b == b;
    } else {
      assert (a + b)[1..] == a[1..] + b;
      RunConcat(Apply(t, a[0]), ApplyToMap(m, a[0]), a[1..], b);
    }
  }

  lemma {:induction false} RunOne(t: Table, m: map<Uri, Resource>, op: Op)
    ensures Run(t, [op]) == Apply(t, op) && RunOnMap(m, [op]) == ApplyToMap(m, op)
  {
    assert [op][1..] == [];
  }

  predicate DistinctReplaces(ops: seq<Op>) {
    forall i | 0 <= i < |ops| && ops[i].OpReplace? :: DistinctUris(Named(ops[i].rs))
  }

  predicate OrderedReplaces(ops: seq<Op>) {
    forall i | 0 <= i < |ops| && ops[i].OpReplace? :: RepeatsComeFirst(ops[i].rs)
  }

  predicate NoReplace(ops: seq<Op>) {
    forall i | 0 <= i < |ops| :: !ops[i].OpReplace?
  }

  lemma {:induction false} RunRefines(t: Table, ops: seq<Op>)
    requires Safe(t) && OrderedReplaces(ops)
    ensures Safe(Run(t, ops)) && AsMap(Run(t, ops)) == RunOnMap(AsMap(t), ops)
    decreases |ops|
  {
    if ops != [] {
      ApplyRefines(t, ops[0]);
      RunRefines(Apply(t, ops[0]), ops[1..]);
    }
  }

  lemma {:induction false} RunKeepsExact(t: Table, ops: seq<Op>)
    requires Exact(t) && DistinctReplaces(ops)
    ensures Exact(Run(t, ops))
    decreases |ops|
  {
    if ops != [] {
      ApplyKeepsExact(t, ops[0]);
      RunKeepsExact(Apply(t, ops[0]), ops[1..]);
    }
  }

  /** Every lookup answers as the map does. */
  ghost predicate Agree(t: Table, m: map<Uri, Resource>) {
    forall u :: Lookup(t, u) == if u in m then Some(m[u]) else None
  }

  lemma {:induction false} MapViewAgrees(t: Table)
    requires Pointing(t)
    ensures Agree(t, AsMap(t))
  {
  }

  // ----- when the map view fails -----

  /** The index, where it knows a stale slot's URI, points past that slot. */
  ghost predicate PointsPast(t: Table) {
    Pointing(t) && forall i | 0 <= i < |t.resources| && t.resources[i].uri in t.index :: i <= t.index[t.resources[i].uri]
  }

  /** Removing the resource in the last, live slot just drops it. */
  lemma {:induction false} RemoveLast(t: Table)
    requires PointsPast(t) && t.resources != [] && !Stale(t, |t.resources| - 1)
    ensures var last := |t.resources| - 1;
      var t' := Remove(t, t.resources[last].uri);
      && t' == Table(t.resources[..last], t.index - {t.resources[last].uri})
      && PointsPast(t')
      && forall i | 0 <= i < last :: Stale(t', i) <==> Stale(t, i)
  {
    var last := |t.resources| - 1;
    var u := t.resources[last].uri;
    var t' := Remove(t, u);
    assert t.resources[last := t.resources[last]] == t.resources;
    assert t.index[u := last] == t.index;
  }

  /** A live slot before a last stale one: removing the live resource revives the stale one. */
  lemma {:induction false} StaleSlotRevives(t: Table, i: nat)
    requires PointsPast(t) && i < |t.resources| - 1 && !Stale(t, i) && Stale(t, |t.resources| - 1)
    ensures var u := t.resources[|t.resources| - 1].uri;
      u !in t.index && Lookup(Remove(t, t.resources[i].uri), u).Some?
  {
  }

  /** From a live slot before a stale one, removals alone bring a removed URI back. */
  lemma {:induction false} RemovalsResurface(t: Table, m: map<Uri, Resource>, i: nat, j: nat) returns (ops: seq<Op>, u: Uri)
    requires PointsPast(t) && m.Keys == t.index.Keys
    requires i < j < |t.resources| && !Stale(t, i) && Stale(t, j)
    requires forall k | j < k < |t.resources| :: !Stale(t, k)
    ensures NoReplace(ops) && Lookup(Run(t, ops), u).Some? && u !in RunOnMap(m, ops)
    decreases |t.resources|
  {
    var last := |t.resources| - 1;
    if j == last {
      StaleSlotRevives(t, i);
      u := t.resources[last].uri;
      ops := [OpRemove(t.resources[i].uri)];
      RunOne(t, m, ops[0]);
    } else {
      var v := t.resources[last].uri;
      RemoveLast(t);
      var rest;
      rest, u := RemovalsResurface(Remove(t, v), m - {v}, i, j);
      ops := [OpRemove(v)] + rest;
      RunConcat(t, m, [OpRemove(v)], rest);
      RunOne(t, m, OpRemove(v));
    }
  }

  lemma {:induction false} LastStale(t: Table, j: nat) returns (k: nat)
    requires j < |t.resources| && Stale(t, j)
    ensures j <= k < |t.resources| && Stale(t, k) && forall i | k < i < |t.resources| :: !Stale(t, i)
    decreases |t.resources| - j
  {
    k := j;
    if i :| j < i < |t.resources| && Stale(t, i) {
      k := LastStale(t, i);
    }
  }

  lemma {:induction false} UnorderedRepeatResurfaces(rs: seq<Resource>) returns (ops: seq<Op>)
    requires !RepeatsComeFirst(rs)
    ensures NoReplace(ops) && !Agree(Run(Replace(rs), ops), RunOnMap(LastOf(rs), ops))
  {
    ReplaceIsSafeIff(rs);
    var t, m := Replace(rs), LastOf(rs);
    BuildIndexPoints(Named(rs));
    assert t.index.Keys == AsMap(t).Keys == m.Keys;
    var i, j :| 0 <= i < j < |t.resources| && Stale(t, j) && !Stale(t, i);
    var k := LastStale(t, j);
    var u;
    ops, u := RemovalsResurface(t, m, i, k);
  }

  /**
   Exactly when a replacement is harmless: every later sequence of additions, overwrites and
   removals answers all lookups as a map would, if and only if no resource whose URI comes
   again follows one whose URI does not.
   */
  lemma {:induction false} ReplaceHarmlessIff(rs: seq<Resource>)
    ensures (forall ops | NoReplace(ops) :: Agree(Run(Replace(rs), ops), RunOnMap(LastOf(rs), ops)))
       <==> RepeatsComeFirst(rs)
  {
    ReplaceIsSafeIff(rs);
    if RepeatsComeFirst(rs) {
      forall ops | NoReplace(ops) ensures Agree(Run(Replace(rs), ops), RunOnMap(LastOf(rs), ops)) {
        RunRefines(Replace(rs), ops);
        MapViewAgrees(Run(Replace(rs), ops));
      }
    } else {
      var ops := UnorderedRepeatResurfaces(rs);
    }
  }

  /** At every point of the history, and after any further edits there, lookups are a map's. */
  ghost predicate AlwaysAMap(ops: seq<Op>) {
    forall n: nat, edits | n <= |ops| && NoReplace(edits) ::
      Agree(Run(Run(EMPTY, ops[..n]), edits), RunOnMap(RunOnMap(map[], ops[..n]), edits))
  }

  lemma {:induction false} OrderedHistoryAgrees(ops: seq<Op>)
    requires OrderedReplaces(ops)
    ensures Agree(Run(EMPTY, ops), RunOnMap(map[], ops))
  {
    assert AsMap(EMPTY) == map[];
    RunRefines(EMPTY, ops);
    MapViewAgrees(Run(EMPTY, ops));
  }

  lemma {:induction false} AfterReplace(ops: seq<Op>, n: nat)
    requires n < |ops| && ops[n].OpReplace?
    ensures Run(EMPTY, ops[..n + 1]) == Replace(ops[n].rs) && RunOnMap(map[], ops[..n + 1]) == LastOf(ops[n].rs)
  {
    assert ops[..n + 1] == ops[..n] + [ops[n]];
    RunConcat(EMPTY, map[], ops[..n], [ops[n]]);
    RunOne(Run(EMPTY, ops[..n]), RunOnMap(map[], ops[..n]), ops[n]);
  }

  /**
   Refinement. The container is a plain map throughout a history, further edits at any point
   included, if and only if none of its replacements has a repeated URI behind a single one.
   */
  lemma {:induction false} ContainerIsAMap(ops: seq<Op>)
    ensures AlwaysAMap(ops) <==> OrderedReplaces(ops)
  {
    if OrderedReplaces(ops) {
      forall n: nat, edits | n <= |ops| && NoReplace(edits)
        ensures Agree(Run(Run(EMPTY, ops[..n]), edits), RunOnMap(RunOnMap(map[], ops[..n]), edits))
      {
        RunConcat(EMPTY, map[], ops[..n], edits);
        OrderedHistoryAgrees(ops[..n] + edits);
      }
    } else {
      var i :| 0 <= i < |ops| && ops[i].OpReplace? && !RepeatsComeFirst(ops[i].rs);
      AfterReplace(ops, i);
      var edits := UnorderedRepeatResurfaces(ops[i].rs);
      assert !Agree(Run(Run(EMPTY, ops[..i + 1]), edits), RunOnMap(RunOnMap(map[], ops[..i + 1]), edits));
    }
  }

  /**
   Listing. While no replacement repeats a URI, the index is the exact inverse of the slice
   and the slice holds exactly the resources of the map, each once.
   */
  lemma {:induction false} ListingIsExact(ops: seq<Op>)
    requires DistinctReplaces(ops)
    ensures Exact(Run(EMPTY, ops)) && DistinctUris(Run(EMPTY, ops).resources)
    ensures forall r :: r in Run(EMPTY, ops).resources <==> Lookup(Run(EMPTY, ops), r.uri) == Some(r)
  {
    RunKeepsExact(EMPTY, ops);
    var t := Run(EMPTY, ops);
    forall r | r in t.resources ensures Lookup(t, r.uri) == Some(r) {
      var i :| 0 <= i < |t.resources| && t.resources[i] == r;
      assert t.index[t.resources[i].uri] == i;
    }
  }

  /** After any history at all, index entries stay in range and point at their own URI. */
  lemma {:induction false} IndexNeverDangles(t: Table, ops: seq<Op>)
    requires Pointing(t)
    ensures Pointing(Run(t, ops))
    decreases |ops|
  {
    if ops != [] {
      ApplyKeepsPointing(t, ops[0]);
      IndexNeverDangles(Apply(t, ops[0]), ops[1..]);
    }
  }

  /**
   With a repeated URI the map view fails: after removing the URI, a later removal of
   another resource brings the stale first copy back.
   */
  lemma {:induction false} RepeatedUriResurfaces(x: Resource, a: Resource, b: Resource)
    requires a.uri == b.uri != "" && x.uri != "" && x.uri != a.uri
    ensures var ops := [OpReplace([x, a, b]), OpRemove(a.uri), OpRemove(x.uri)];
      Lookup(Run(EMPTY, ops), a.uri) == Some(a) && a.uri !in RunOnMap(map[], ops)
  {
    var rs := [x, a, b];
    assert rs[..2] == [x, a] && [x, a][..1] == [x] && [x][..0] == [];
    assert Named([]) == [] && Named([x]) == [x] && Named([x, a]) == [x, a] && Named(rs) == rs;
    assert BuildIndex([x]) == map[x.uri := 0];
    assert BuildIndex([x, a]) == map[x.uri := 0, a.uri := 1];
    assert BuildIndex(rs) == map[x.uri := 0, a.uri := 2];
    var ops := [OpReplace(rs), OpRemove(a.uri), OpRemove(x.uri)];
    var t1 := Apply(EMPTY, ops[0]);
    var t2 := Apply(t1, ops[1]);
    assert t2 == Table([x, a], map[x.uri := 0]);
    var t3 := Apply(t2, ops[2]);
    assert t3 == Table([a], map[a.uri := 0]);
    assert ops[1..][1..] == [ops[2]] && ops[1..][1..][1..] == [];
    assert Run(t3, []) == t3 && Run(t2, [ops[2]]) == t3;
    assert Run(t1, ops[1..]) == t3;
    var m1 := ApplyToMap(map[], ops[0]);
    assert RunOnMap(m1, ops[1..]) == RunOnMap(m1 - {a.uri}, [ops[2]]) == RunOnMap(m1 - {a.uri} - {x.uri}, []);
  }
}
