/** The grouping of tool calls into chains that run one call at a time. */
module Grouping {
  import opened Wrappers

  datatype Concurrency =
    | Parallel
    | Keyed(key: string)
    | Keys(keys: seq<string>)
    | Serial

  datatype Job = Job(index: nat, input: string, exclusive: bool)

  datatype Groups = Groups(
    singles: seq<Job>,
    chains: seq<seq<Job>>,
    keyed: map<string, nat>,
    serial: Option<nat>)

  const NoGroups := Groups([], [], map[], None)

  /** A call as it was added. */
  datatype Request = Request(input: string, concurrency: Concurrency)

  /** Requests by call index. */
  type History = map<nat, Request>

  function KeysOf(c: Concurrency): set<string> {
    match c
    case Parallel => {}
    case Keyed(key) => {key}
    case Keys(keys) => set k | k in keys
    case Serial => {}
  }

  // ----- adding a job -----

  /** Sorted insertion without repetition. */
  function InsertSlot(slots: seq<nat>, slot: nat): seq<nat> {
    if slots == [] || slot < slots[0] then [slot] + slots
    else if slot == slots[0] then slots
    else [slots[0]] + InsertSlot(slots[1..], slot)
  }

  /** The chains the first `n` keys belong to, in order and without
      repetition. */
  function SlotsOf(keyed: map<string, nat>, keys: seq<string>, n: nat): seq<nat>
    requires n <= |keys|
  {
    if n == 0 then []
    else
      var before := SlotsOf(keyed, keys, n - 1);
      if keys[n - 1] in keyed then InsertSlot(before, keyed[keys[n - 1]]) else before
  }

  /** Chain `slot` is drained into chain `first`. */
  function Bridge(g: Groups, first: nat, slot: nat): Groups
    requires first < |g.chains| && slot < |g.chains|
  {
    g.(chains := g.chains[first := g.chains[first] + g.chains[slot]][slot := []],
       keyed := map k | k in g.keyed :: if g.keyed[k] == slot then first else g.keyed[k])
  }

  function BridgeAll(g: Groups, first: nat, rest: seq<nat>, n: nat): (r: Groups)
    requires n <= |rest| && first < |g.chains| && forall i :: 0 <= i < |rest| ==> rest[i] < |g.chains|
    ensures |r.chains| == |g.chains| && r.singles == g.singles && r.serial == g.serial
  {
    if n == 0 then g else Bridge(BridgeAll(g, first, rest, n - 1), first, rest[n - 1])
  }

  function Assign(keyed: map<string, nat>, keys: seq<string>, n: nat, target: nat): map<string, nat>
    requires n <= |keys|
  {
    if n == 0 then keyed else Assign(keyed, keys, n - 1, target)[keys[n - 1] := target]
  }

  function Place(g: Groups, job: Job, keys: seq<string>, target: nat): Groups
    requires target < |g.chains|
  {
    g.(chains := g.chains[target := g.chains[target] + [job]],
       keyed := Assign(g.keyed, keys, |keys|, target))
  }

  ghost predicate SlotsInRange(g: Groups) {
    && (forall k :: k in g.keyed ==> g.keyed[k] < |g.chains|)
    && (g.serial.Some? ==> g.serial.value < |g.chains|)
  }

  lemma {:induction false} InsertSlotMeaning(slots: seq<nat>, slot: nat)
    ensures forall s :: s in InsertSlot(slots, slot) <==> s in slots || s == slot
    ensures Ascending(slots) ==> Ascending(InsertSlot(slots, slot))
  {
    if slots != [] && slot > slots[0] {
      InsertSlotMeaning(slots[1..], slot);
      assert forall s :: s in slots <==> s == slots[0] || s in slots[1..];
      var t := InsertSlot(slots[1..], slot);
      if Ascending(slots) {
        forall j | 0 <= j < |t|
          ensures slots[0] < t[j]
        {
          assert t[j] in t;
        }
      }
    }
  }

  ghost predicate Ascending(slots: seq<nat>) {
    forall i, j :: 0 <= i < j < |slots| ==> slots[i] < slots[j]
  }

  lemma {:induction false} SlotsOfMeaning(keyed: map<string, nat>, keys: seq<string>, n: nat)
    requires n <= |keys|
    ensures Ascending(SlotsOf(keyed, keys, n))
    ensures forall s :: s in SlotsOf(keyed, keys, n) <==>
              exists i :: 0 <= i < n && keys[i] in keyed && keyed[keys[i]] == s
  {
    if n > 0 {
      SlotsOfMeaning(keyed, keys, n - 1);
      if keys[n - 1] in keyed {
        InsertSlotMeaning(SlotsOf(keyed, keys, n - 1), keyed[keys[n - 1]]);
      }
    }
  }

  function AddKeys(g: Groups, job: Job, keys: seq<string>): Groups
    requires SlotsInRange(g)
  {
    SlotsOfMeaning(g.keyed, keys, |keys|);
    var slots := SlotsOf(g.keyed, keys, |keys|);
    if slots == [] then Place(g.(chains := g.chains + [[]]), job, keys, |g.chains|)
    else
      assert forall i :: 0 <= i < |slots| ==> slots[i] in slots;
      Place(BridgeAll(g, slots[0], slots[1..], |slots| - 1), job, keys, slots[0])
  }

  function Added(g: Groups, job: Job, c: Concurrency): Groups
    requires SlotsInRange(g)
  {
    match c
    case Parallel => g.(singles := g.singles + [job])
    case Keyed(key) =>
      if key in g.keyed then g.(chains := g.chains[g.keyed[key] := g.chains[g.keyed[key]] + [job]])
      else g.(keyed := g.keyed[key := |g.chains|], chains := g.chains + [[job]])
    case Keys(keys) =>
      if keys == [] then g.(singles := g.singles + [job]) else AddKeys(g, job, keys)
    case Serial =>
      var alone := job.(exclusive := true);
      if g.serial.Some? then g.(chains := g.chains[g.serial.value := g.chains[g.serial.value] + [alone]])
      else g.(serial := Some(|g.chains|), chains := g.chains + [[alone]])
  }

  /** A single key is a set of one. */
  lemma KeyedIsKeys(g: Groups, job: Job, key: string)
    requires SlotsInRange(g)
    ensures Added(g, job, Keyed(key)) == AddKeys(g, job, [key])
  {
    assert SlotsOf(g.keyed, [key], 0) == [];
    if key in g.keyed {
      var slot := g.keyed[key];
      assert SlotsOf(g.keyed, [key], 1) == [slot];
      assert [slot][1..] == [];
      assert Assign(g.keyed, [key], 0, slot) == g.keyed;
      assert BridgeAll(g, slot, [], 0) == g;
      assert Assign(g.keyed, [key], 1, slot) == g.keyed;
    } else {
      assert SlotsOf(g.keyed, [key], 1) == [];
      var more := g.chains + [[]];
      assert Assign(g.keyed, [key], 0, |g.chains|) == g.keyed;
      assert Assign(g.keyed, [key], 1, |g.chains|) == g.keyed[key := |g.chains|];
      assert more[|g.chains|] + [job] == [job];
      assert more[|g.chains| := more[|g.chains|] + [job]] == g.chains + [[job]];
    }
  }

  // ----- what the groups mean -----

  /** The calls share a key. */
  ghost predicate Share(h: History, i: nat, j: nat) {
    i in h && j in h && exists k :: k in KeysOf(h[i].concurrency) && k in KeysOf(h[j].concurrency)
  }

  ghost predicate IsLink(h: History, i: nat, j: nat, p: seq<nat>) {
    && |p| > 0
    && p[0] == i
    && p[|p| - 1] == j
    && (forall x :: 0 <= x < |p| ==> p[x] in h)
    && forall x :: 0 <= x < |p| - 1 ==> Share(h, p[x], p[x + 1])
  }

  /** A chain of shared keys leads from one call to the other. */
  ghost predicate Linked(h: History, i: nat, j: nat) {
    exists p :: IsLink(h, i, j, p)
  }

  lemma LinkedSelf(h: History, i: nat)
    requires i in h
    ensures Linked(h, i, i)
  {
    assert IsLink(h, i, i, [i]);
  }

  lemma LinkedShare(h: History, i: nat, j: nat)
    requires Share(h, i, j)
    ensures Linked(h, i, j)
  {
    assert IsLink(h, i, j, [i, j]);
  }

  lemma LinkedTransitive(h: History, i: nat, j: nat, k: nat)
    requires Linked(h, i, j) && Linked(h, j, k)
    ensures Linked(h, i, k)
  {
    var p :| IsLink(h, i, j, p);
    var q :| IsLink(h, j, k, q);
    var r := p + q[1..];
    forall x | 0 <= x < |r| - 1
      ensures Share(h, r[x], r[x + 1])
    {
      if x >= |p| - 1 {
        assert r[x] == q[x - (|p| - 1)] && r[x + 1] == q[x + 1 - (|p| - 1)];
      }
    }
    assert IsLink(h, i, k, r);
  }

  /** More requests only add links. */
  lemma LinkedGrows(h: History, h': History, i: nat, j: nat)
    requires Linked(h, i, j) && forall x :: x in h ==> x in h' && h'[x] == h[x]
    ensures Linked(h', i, j)
  {
    var p :| IsLink(h, i, j, p);
    forall x | 0 <= x < |p| - 1
      ensures Share(h', p[x], p[x + 1])
    {
      assert Share(h, p[x], p[x + 1]);
    }
    assert IsLink(h', i, j, p);
  }

  ghost predicate HasKeys(h: History, i: nat) {
    i in h && KeysOf(h[i].concurrency) != {}
  }

  ghost predicate InSlot(keyed: map<string, nat>, h: History, i: nat, s: nat) {
    i in h && forall k :: k in KeysOf(h[i].concurrency) ==> k in keyed && keyed[k] == s
  }

  ghost predicate Holds(chain: seq<Job>, i: nat) {
    exists x :: 0 <= x < |chain| && chain[x].index == i
  }

  ghost predicate DistinctJobs(chain: seq<Job>) {
    forall x, y :: 0 <= x < y < |chain| ==> chain[x].index != chain[y].index
  }

  ghost predicate Increasing(chain: seq<Job>) {
    forall x, y :: 0 <= x < y < |chain| ==> chain[x].index < chain[y].index
  }

  ghost predicate KeyOrder(h: History, chain: seq<Job>) {
    forall x, y :: 0 <= x < y < |chain| && Share(h, chain[x].index, chain[y].index) ==>
      chain[x].index < chain[y].index
  }

  /** A job as it was requested. */
  ghost predicate Genuine(h: History, placed: set<nat>, job: Job) {
    && job.index in placed
    && job.index in h
    && job.input == h[job.index].input
    && job.exclusive == h[job.index].concurrency.Serial?
  }

  ghost predicate KeyChain(keyed: map<string, nat>, h: History, placed: set<nat>, s: nat, chain: seq<Job>) {
    && (forall x :: 0 <= x < |chain| ==>
          && Genuine(h, placed, chain[x])
          && HasKeys(h, chain[x].index)
          && InSlot(keyed, h, chain[x].index, s))
    && DistinctJobs(chain)
    && KeyOrder(h, chain)
  }

  /** A chain that holds exactly the placed calls with property `p`, in
      call order. */
  ghost predicate Lists(h: History, placed: set<nat>, chain: seq<Job>, p: Concurrency -> bool) {
    && (forall x :: 0 <= x < |chain| ==> Genuine(h, placed, chain[x]) && p(h[chain[x].index].concurrency))
    && Increasing(chain)
    && forall i :: i in placed && i in h && p(h[i].concurrency) ==> Holds(chain, i)
  }

  predicate Free(c: Concurrency) {
    c.Parallel? || (c.Keys? && c.keys == [])
  }

  predicate Alone(c: Concurrency) {
    c.Serial?
  }

  ghost predicate KeySlots(g: Groups, h: History, placed: set<nat>) {
    forall k :: k in g.keyed ==>
      g.keyed[k] < |g.chains| && g.serial != Some(g.keyed[k]) && Known(h, placed, k)
  }

  ghost predicate Known(h: History, placed: set<nat>, k: string) {
    exists i :: i in placed && i in h && k in KeysOf(h[i].concurrency)
  }

  ghost predicate KeyChains(g: Groups, h: History, placed: set<nat>) {
    forall s :: 0 <= s < |g.chains| && g.serial != Some(s) ==> KeyChain(g.keyed, h, placed, s, g.chains[s])
  }

  ghost predicate Housed(g: Groups, h: History, i: nat) {
    exists s :: IsHouse(g, h, i, s)
  }

  ghost predicate IsHouse(g: Groups, h: History, i: nat, s: nat) {
    s < |g.chains| && g.serial != Some(s) && InSlot(g.keyed, h, i, s) && Holds(g.chains[s], i)
  }

  ghost predicate AllHoused(g: Groups, h: History, placed: set<nat>) {
    forall i :: i in placed && HasKeys(h, i) ==> Housed(g, h, i)
  }

  ghost predicate Roommates(keyed: map<string, nat>, h: History, i: nat, j: nat, s: nat) {
    HasKeys(h, i) && HasKeys(h, j) && InSlot(keyed, h, i, s) && InSlot(keyed, h, j, s)
  }

  /** Calls of one slot are linked. */
  ghost predicate SlotsLinked(g: Groups, h: History, placed: set<nat>) {
    forall i, j, s: nat :: i in placed && j in placed && Roommates(g.keyed, h, i, j, s) ==> Linked(h, i, j)
  }

  ghost predicate SerialPart(g: Groups, h: History, placed: set<nat>) {
    match g.serial
    case None => forall i :: i in placed && i in h ==> !h[i].concurrency.Serial?
    case Some(s) => s < |g.chains| && g.chains[s] != [] && Lists(h, placed, g.chains[s], Alone)
  }

  /** The placed calls are grouped as their concurrency asks. */
  ghost predicate Grouped(g: Groups, h: History, placed: set<nat>) {
    && placed <= h.Keys
    && Lists(h, placed, g.singles, Free)
    && SerialPart(g, h, placed)
    && KeySlots(g, h, placed)
    && KeyChains(g, h, placed)
    && AllHoused(g, h, placed)
    && SlotsLinked(g, h, placed)
  }

  lemma GroupedInRange(g: Groups, h: History, placed: set<nat>)
    requires Grouped(g, h, placed)
    ensures SlotsInRange(g)
  {
  }

  lemma NoGroupsGrouped()
    ensures Grouped(NoGroups, map[], {})
  {
  }

  // ----- a new request that is not placed yet -----

  ghost predicate Newest(h: History, i: nat) {
    forall j :: j in h ==> j < i
  }

  lemma ShareStays(h: History, n: nat, r: Request, i: nat, j: nat)
    requires n !in h && i in h && j in h
    ensures Share(h[n := r], i, j) <==> Share(h, i, j)
  {
    var h' := h[n := r];
    assert h'[i] == h[i] && h'[j] == h[j];
    if Share(h, i, j) {
      var k :| k in KeysOf(h[i].concurrency) && k in KeysOf(h[j].concurrency);
      assert k in KeysOf(h'[i].concurrency);
    }
  }

  lemma ListsStay(h: History, placed: set<nat>, chain: seq<Job>, p: Concurrency -> bool, n: nat, r: Request)
    requires Lists(h, placed, chain, p) && n !in h && placed <= h.Keys
    ensures Lists(h[n := r], placed, chain, p)
  {
  }

  lemma KeyChainStays(keyed: map<string, nat>, h: History, placed: set<nat>, s: nat, chain: seq<Job>, n: nat,
                      r: Request)
    requires KeyChain(keyed, h, placed, s, chain) && n !in h && placed <= h.Keys
    ensures KeyChain(keyed, h[n := r], placed, s, chain)
  {
    forall x, y | 0 <= x < y < |chain|
      ensures Share(h[n := r], chain[x].index, chain[y].index) <==> Share(h, chain[x].index, chain[y].index)
    {
      ShareStays(h, n, r, chain[x].index, chain[y].index);
    }
  }

  lemma GroupedAnnounced(g: Groups, h: History, placed: set<nat>, n: nat, r: Request)
    requires Grouped(g, h, placed) && n !in h
    ensures Grouped(g, h[n := r], placed)
  {
    hide Lists, KeyChains, SerialPart, KeySlots, AllHoused, SlotsLinked;
    ListsStay(h, placed, g.singles, Free, n, r);
    SerialStays(g, h, placed, n, r);
    KeyChainsStay(g, h, placed, n, r);
    AllHousedStays(g, h, placed, n, r);
    LinksStay(g, h, placed, n, r);
    KeysStay(g, h, placed, n, r);
  }

  lemma SerialStays(g: Groups, h: History, placed: set<nat>, n: nat, r: Request)
    requires SerialPart(g, h, placed) && n !in h && placed <= h.Keys
    ensures SerialPart(g, h[n := r], placed)
  {
    hide Lists;
    if g.serial.Some? {
      ListsStay(h, placed, g.chains[g.serial.value], Alone, n, r);
    }
  }

  lemma KeyChainsStay(g: Groups, h: History, placed: set<nat>, n: nat, r: Request)
    requires KeyChains(g, h, placed) && n !in h && placed <= h.Keys
    ensures KeyChains(g, h[n := r], placed)
  {
    hide KeyChain;
    forall s | 0 <= s < |g.chains| && g.serial != Some(s)
      ensures KeyChain(g.keyed, h[n := r], placed, s, g.chains[s])
    {
      KeyChainStays(g.keyed, h, placed, s, g.chains[s], n, r);
    }
  }

  lemma KeysStay(g: Groups, h: History, placed: set<nat>, n: nat, r: Request)
    requires KeySlots(g, h, placed) && n !in h
    ensures KeySlots(g, h[n := r], placed)
  {
    forall k | k in g.keyed
      ensures Known(h[n := r], placed, k)
    {
      assert Known(h, placed, k);
      var i :| i in placed && i in h && k in KeysOf(h[i].concurrency);
      assert h[n := r][i] == h[i];
    }
  }

  lemma LinksStay(g: Groups, h: History, placed: set<nat>, n: nat, r: Request)
    requires SlotsLinked(g, h, placed) && n !in h && placed <= h.Keys
    ensures SlotsLinked(g, h[n := r], placed)
  {
    hide Linked;
    var h' := h[n := r];
    forall i, j, s: nat | i in placed && j in placed && Roommates(g.keyed, h', i, j, s)
      ensures Linked(h', i, j)
    {
      assert Roommates(g.keyed, h, i, j, s);
      LinkedGrows(h, h', i, j);
    }
  }

  lemma AllHousedStays(g: Groups, h: History, placed: set<nat>, n: nat, r: Request)
    requires AllHoused(g, h, placed) && n !in h && placed <= h.Keys
    ensures AllHoused(g, h[n := r], placed)
  {
    forall i | i in placed && HasKeys(h[n := r], i)
      ensures Housed(g, h[n := r], i)
    {
      assert HasKeys(h, i);
      var s: nat :| IsHouse(g, h, i, s);
      assert IsHouse(g, h[n := r], i, s);
    }
  }

  // ----- bridging two chains -----

  /** A new call `n` has keys in both chains. */
  ghost predicate Bridges(g: Groups, h: History, n: nat, first: nat, slot: nat) {
    && n in h
    && (exists k :: k in KeysOf(h[n].concurrency) && k in g.keyed && g.keyed[k] == first)
    && (exists k :: k in KeysOf(h[n].concurrency) && k in g.keyed && g.keyed[k] == slot)
  }

  lemma BridgeInSlot(g: Groups, h: History, placed: set<nat>, first: nat, slot: nat, i: nat, s: nat)
    requires first != slot && first < |g.chains| && slot < |g.chains| && i in placed && HasKeys(h, i)
    requires AllHoused(g, h, placed)
    ensures var keyed' := Bridge(g, first, slot).keyed;
            InSlot(keyed', h, i, s) <==>
              if s == first then InSlot(g.keyed, h, i, first) || InSlot(g.keyed, h, i, slot)
              else if s == slot then false
              else InSlot(g.keyed, h, i, s)
  {
    assert Housed(g, h, i);
    var t: nat :| IsHouse(g, h, i, t);
    var k :| k in KeysOf(h[i].concurrency);
    assert g.keyed[k] == t;
  }

  lemma ToNew(g: Groups, h: History, placed: set<nat>, n: nat, k: string, i: nat, s: nat)
    requires n in h && k in KeysOf(h[n].concurrency) && k in g.keyed && g.keyed[k] == s
    requires KeySlots(g, h, placed) && SlotsLinked(g, h, placed) && AllHoused(g, h, placed)
    requires i in placed && HasKeys(h, i) && InSlot(g.keyed, h, i, s)
    ensures Linked(h, i, n) && Linked(h, n, i)
  {
    hide Linked;
    assert Known(h, placed, k);
    var w :| w in placed && w in h && k in KeysOf(h[w].concurrency);
    assert Housed(g, h, w);
    var t: nat :| IsHouse(g, h, w, t);
    assert Roommates(g.keyed, h, i, w, s) && Roommates(g.keyed, h, w, i, s);
    LinkedShare(h, w, n);
    LinkedShare(h, n, w);
    LinkedTransitive(h, i, w, n);
    LinkedTransitive(h, n, w, i);
  }

  lemma BridgeLinked(g: Groups, h: History, placed: set<nat>, n: nat, first: nat, slot: nat)
    requires first != slot && first < |g.chains| && slot < |g.chains| && Bridges(g, h, n, first, slot)
    requires KeySlots(g, h, placed) && SlotsLinked(g, h, placed) && AllHoused(g, h, placed)
    ensures SlotsLinked(Bridge(g, first, slot), h, placed)
  {
    hide Linked, KeySlots, AllHoused, SlotsLinked, InSlot;
    var g' := Bridge(g, first, slot);
    var ka :| ka in KeysOf(h[n].concurrency) && ka in g.keyed && g.keyed[ka] == first;
    var kb :| kb in KeysOf(h[n].concurrency) && kb in g.keyed && g.keyed[kb] == slot;
    forall i, j, s: nat | i in placed && j in placed && Roommates(g'.keyed, h, i, j, s)
      ensures Linked(h, i, j)
    {
      BridgeInSlot(g, h, placed, first, slot, i, s);
      BridgeInSlot(g, h, placed, first, slot, j, s);
      if s != first {
        OldRoommates(g, h, placed, i, j, s);
      } else {
        if InSlot(g.keyed, h, i, first) { ToNew(g, h, placed, n, ka, i, first); }
        if InSlot(g.keyed, h, i, slot) { ToNew(g, h, placed, n, kb, i, slot); }
        if InSlot(g.keyed, h, j, first) { ToNew(g, h, placed, n, ka, j, first); }
        if InSlot(g.keyed, h, j, slot) { ToNew(g, h, placed, n, kb, j, slot); }
        LinkedTransitive(h, i, n, j);
      }
    }
    assert SlotsLinked(g', h, placed) by { SlotsLinkedDef(g', h, placed); }
  }

  lemma SlotsLinkedDef(g: Groups, h: History, placed: set<nat>)
    requires forall i, j, s: nat :: i in placed && j in placed && Roommates(g.keyed, h, i, j, s) ==> Linked(h, i, j)
    ensures SlotsLinked(g, h, placed)
  {
  }

  lemma OldRoommates(g: Groups, h: History, placed: set<nat>, i: nat, j: nat, s: nat)
    requires SlotsLinked(g, h, placed) && i in placed && j in placed
    requires HasKeys(h, i) && HasKeys(h, j) && InSlot(g.keyed, h, i, s) && InSlot(g.keyed, h, j, s)
    ensures Linked(h, i, j)
  {
    assert Roommates(g.keyed, h, i, j, s);
  }

  lemma DifferentSlots(keyed: map<string, nat>, h: History, i: nat, j: nat, s: nat, t: nat)
    requires InSlot(keyed, h, i, s) && InSlot(keyed, h, j, t) && s != t && HasKeys(h, i)
    ensures !Share(h, i, j) && i != j
  {
  }

  lemma JoinedChain(keyed: map<string, nat>, h: History, placed: set<nat>, s: nat, a: seq<Job>, t: nat, b: seq<Job>)
    requires KeyChain(keyed, h, placed, s, a) && KeyChain(keyed, h, placed, t, b) && s != t
    ensures DistinctJobs(a + b) && KeyOrder(h, a + b)
  {
    hide Share;
    forall x, y | 0 <= x < y < |a + b|
      ensures (a + b)[x].index != (a + b)[y].index
      ensures Share(h, (a + b)[x].index, (a + b)[y].index) ==> (a + b)[x].index < (a + b)[y].index
    {
      if x < |a| <= y {
        DifferentSlots(keyed, h, a[x].index, b[y - |a|].index, s, t);
      }
    }
  }

  lemma BridgeChains(g: Groups, h: History, placed: set<nat>, first: nat, slot: nat)
    requires first != slot && first < |g.chains| && slot < |g.chains|
    requires g.serial != Some(first) && g.serial != Some(slot)
    requires KeyChains(g, h, placed) && AllHoused(g, h, placed)
    ensures KeyChains(Bridge(g, first, slot), h, placed)
  {
    hide Share, InSlot, KeyOrder, DistinctJobs, AllHoused;
    var g' := Bridge(g, first, slot);
    var a, b := g.chains[first], g.chains[slot];
    assert KeyChain(g.keyed, h, placed, first, a) && KeyChain(g.keyed, h, placed, slot, b);
    JoinedChain(g.keyed, h, placed, first, a, slot, b);
    forall s | 0 <= s < |g'.chains| && g'.serial != Some(s)
      ensures KeyChain(g'.keyed, h, placed, s, g'.chains[s])
    {
      var chain := g'.chains[s];
      if s == slot {
        EmptyChain(g'.keyed, h, placed, s);
      } else {
        forall x | 0 <= x < |chain|
          ensures Genuine(h, placed, chain[x]) && HasKeys(h, chain[x].index) && InSlot(g'.keyed, h, chain[x].index, s)
        {
          if s == first {
            assert chain[x] == if x < |a| then a[x] else b[x - |a|];
          } else {
            assert KeyChain(g.keyed, h, placed, s, chain);
          }
          BridgeInSlot(g, h, placed, first, slot, chain[x].index, s);
        }
        if s != first {
          assert KeyChain(g.keyed, h, placed, s, chain);
        }
      }
    }
  }

  lemma EmptyChain(keyed: map<string, nat>, h: History, placed: set<nat>, s: nat)
    ensures KeyChain(keyed, h, placed, s, [])
  {
  }

  lemma HoldsJoin(a: seq<Job>, b: seq<Job>, i: nat)
    ensures Holds(a + b, i) <==> Holds(a, i) || Holds(b, i)
  {
    if Holds(a, i) {
      var x :| 0 <= x < |a| && a[x].index == i;
      assert (a + b)[x].index == i;
    }
    if Holds(b, i) {
      var x :| 0 <= x < |b| && b[x].index == i;
      assert (a + b)[|a| + x].index == i;
    }
  }

  lemma BridgeHoused(g: Groups, h: History, placed: set<nat>, first: nat, slot: nat)
    requires first != slot && first < |g.chains| && slot < |g.chains|
    requires g.serial != Some(first) && g.serial != Some(slot) && AllHoused(g, h, placed)
    ensures AllHoused(Bridge(g, first, slot), h, placed)
  {
    hide InSlot, Holds;
    var g' := Bridge(g, first, slot);
    forall i | i in placed && HasKeys(h, i)
      ensures Housed(g', h, i)
    {
      assert Housed(g, h, i);
      var s: nat :| IsHouse(g, h, i, s);
      HoldsJoin(g.chains[first], g.chains[slot], i);
      var t := if s == slot then first else s;
      BridgeInSlot(g, h, placed, first, slot, i, t);
      assert IsHouse(g', h, i, t);
    }
  }

  lemma BridgeGrouped(g: Groups, h: History, placed: set<nat>, n: nat, first: nat, slot: nat)
    requires Grouped(g, h, placed) && first != slot && first < |g.chains| && slot < |g.chains|
    requires Bridges(g, h, n, first, slot)
    ensures Grouped(Bridge(g, first, slot), h, placed)
    ensures g.serial != Some(first) && g.serial != Some(slot)
  {
    hide Lists, AllHoused, KeyChains, SlotsLinked, Known;
    BridgeLinked(g, h, placed, n, first, slot);
    BridgeChains(g, h, placed, first, slot);
    BridgeHoused(g, h, placed, first, slot);
  }

  // ----- all chains of a job at once -----

  lemma {:induction false} BridgeAllKeyed(g: Groups, first: nat, rest: seq<nat>, n: nat)
    requires n <= |rest| && first < |g.chains| && forall i :: 0 <= i < |rest| ==> rest[i] < |g.chains|
    requires first !in rest
    ensures BridgeAll(g, first, rest, n).keyed
            == map k | k in g.keyed :: if g.keyed[k] in rest[..n] then first else g.keyed[k]
  {
    if n > 0 {
      BridgeAllKeyed(g, first, rest, n - 1);
      assert rest[..n] == rest[..n - 1] + [rest[n - 1]];
      BridgeKeyed(g.keyed, BridgeAll(g, first, rest, n - 1), first, rest, n);
    }
  }

  lemma BridgeKeyed(keyed: map<string, nat>, before: Groups, first: nat, rest: seq<nat>, n: nat)
    requires 0 < n <= |rest| && first < |before.chains| && rest[n - 1] < |before.chains| && first !in rest
    requires before.keyed == map k | k in keyed :: if keyed[k] in rest[..n - 1] then first else keyed[k]
    ensures Bridge(before, first, rest[n - 1]).keyed
            == map k | k in keyed :: if keyed[k] in rest[..n] then first else keyed[k]
  {
    assert rest[..n] == rest[..n - 1] + [rest[n - 1]];
    assert rest[n - 1] in rest;
  }

  ghost predicate KeysReach(g: Groups, h: History, n: nat, slots: seq<nat>) {
    n in h && forall s :: s in slots ==> Reached(g, h, n, s)
  }

  ghost predicate Reached(g: Groups, h: History, n: nat, s: nat)
    requires n in h
  {
    exists k :: k in KeysOf(h[n].concurrency) && k in g.keyed && g.keyed[k] == s
  }

  lemma StillReached(g: Groups, h: History, n: nat, first: nat, rest: seq<nat>, m: nat, s: nat)
    requires n in h && Reached(g, h, n, s) && m <= |rest| && s !in rest[..m]
    requires first < |g.chains| && (forall i :: 0 <= i < |rest| ==> rest[i] < |g.chains|) && first !in rest
    ensures Reached(BridgeAll(g, first, rest, m), h, n, s)
  {
    hide BridgeAll;
    BridgeAllKeyed(g, first, rest, m);
    var k :| k in KeysOf(h[n].concurrency) && k in g.keyed && g.keyed[k] == s;
    assert BridgeAll(g, first, rest, m).keyed[k] == s;
  }

  lemma {:induction false} BridgeAllGrouped(g: Groups, h: History, placed: set<nat>, n: nat, first: nat,
                                            rest: seq<nat>, m: nat)
    requires Grouped(g, h, placed) && m <= |rest| && first < |g.chains|
    requires forall i :: 0 <= i < |rest| ==> rest[i] < |g.chains|
    requires Ascending([first] + rest) && KeysReach(g, h, n, [first] + rest)
    ensures Grouped(BridgeAll(g, first, rest, m), h, placed)
  {
    hide Grouped, Reached;
    if m > 0 {
      BridgeAllGrouped(g, h, placed, n, first, rest, m - 1);
      var slots := [first] + rest;
      FirstNotInRest(first, rest, m - 1);
      assert slots[0] in slots && slots[m] in slots;
      StillReached(g, h, n, first, rest, m - 1, first);
      StillReached(g, h, n, first, rest, m - 1, rest[m - 1]);
      var before := BridgeAll(g, first, rest, m - 1);
      assert Bridges(before, h, n, first, rest[m - 1]) by { BridgesDef(before, h, n, first, rest[m - 1]); }
      BridgeGrouped(before, h, placed, n, first, rest[m - 1]);
    }
  }

  lemma FirstNotInRest(first: nat, rest: seq<nat>, m: nat)
    requires Ascending([first] + rest) && m < |rest|
    ensures first !in rest && first != rest[m] && rest[m] !in rest[..m] && first !in rest[..m]
  {
    var slots := [first] + rest;
    forall i | 0 <= i < |rest|
      ensures first < rest[i]
    {
      assert slots[0] < slots[i + 1];
    }
    forall i | 0 <= i < m
      ensures rest[i] < rest[m]
    {
      assert slots[i + 1] < slots[m + 1];
    }
  }

  lemma BridgesDef(g: Groups, h: History, n: nat, first: nat, slot: nat)
    requires n in h && Reached(g, h, n, first) && Reached(g, h, n, slot)
    ensures Bridges(g, h, n, first, slot)
  {
  }

  // ----- placing a keyed job -----

  lemma {:induction false} AssignMeaning(keyed: map<string, nat>, keys: seq<string>, n: nat, target: nat)
    requires n <= |keys|
    ensures var r := Assign(keyed, keys, n, target);
            && (forall k :: k in r <==> k in keyed || k in keys[..n])
            && (forall k :: k in r ==> r[k] == if k in keys[..n] then target else keyed[k])
  {
    if n > 0 {
      AssignMeaning(keyed, keys, n - 1, target);
      assert keys[..n] == keys[..n - 1] + [keys[n - 1]];
    }
  }

  /** The slot a keyed job goes to: all its known keys lead there, or the
      slot is unused. */
  ghost predicate Target(g: Groups, keys: seq<string>, target: nat) {
    && target < |g.chains|
    && g.serial != Some(target)
    && (forall k :: k in keys && k in g.keyed ==> g.keyed[k] == target)
    && ((exists k :: k in keys && k in g.keyed)
        || (g.chains[target] == [] && forall k :: k in g.keyed ==> g.keyed[k] != target))
  }

  ghost predicate Incoming(h: History, placed: set<nat>, job: Job, keys: seq<string>) {
    && job.index in h
    && job.index !in placed
    && (forall j :: j in placed ==> j < job.index)
    && job.input == h[job.index].input
    && job.exclusive == h[job.index].concurrency.Serial?
    && KeysOf(h[job.index].concurrency) == set k | k in keys
  }

  ghost predicate Widened(keyed: map<string, nat>, keyed': map<string, nat>, keys: seq<string>, target: nat) {
    && (forall k :: k in keyed' <==> k in keyed || k in keys)
    && (forall k :: k in keyed' ==> keyed'[k] == if k in keys then target else keyed[k])
    && (forall k :: k in keyed && k in keys ==> keyed[k] == target)
  }

  lemma PlaceWidens(g: Groups, job: Job, keys: seq<string>, target: nat)
    requires Target(g, keys, target)
    ensures Widened(g.keyed, Place(g, job, keys, target).keyed, keys, target)
  {
    AssignMeaning(g.keyed, keys, |keys|, target);
    assert keys[..|keys|] == keys;
  }

  lemma SameSlot(g: Groups, keyed': map<string, nat>, h: History, placed: set<nat>, keys: seq<string>, target: nat,
                 i: nat, s: nat)
    requires Widened(g.keyed, keyed', keys, target) && AllHoused(g, h, placed) && i in placed && HasKeys(h, i)
    ensures InSlot(keyed', h, i, s) <==> InSlot(g.keyed, h, i, s)
  {
    assert Housed(g, h, i);
    var t: nat :| IsHouse(g, h, i, t);
  }

  lemma PlaceChain(g: Groups, h: History, placed: set<nat>, job: Job, keys: seq<string>, target: nat, s: nat)
    requires Target(g, keys, target) && Incoming(h, placed, job, keys) && keys != []
             && !h[job.index].concurrency.Serial?
    requires KeyChains(g, h, placed) && AllHoused(g, h, placed) && s < |g.chains| && g.serial != Some(s)
    ensures var g' := Place(g, job, keys, target); KeyChain(g'.keyed, h, placed + {job.index}, s, g'.chains[s])
  {
    hide AllHoused, Target, Share;
    TargetInRange(g, keys, target);
    var g' := Place(g, job, keys, target);
    PlaceWidens(g, job, keys, target);
    assert KeyChain(g.keyed, h, placed, s, g.chains[s]);
    forall x | 0 <= x < |g.chains[s]|
      ensures InSlot(g'.keyed, h, g.chains[s][x].index, s)
    {
      SameSlot(g, g'.keyed, h, placed, keys, target, g.chains[s][x].index, s);
    }
    if s == target {
      assert keys[0] in KeysOf(h[job.index].concurrency);
    }
  }

  lemma PlaceHoused(g: Groups, h: History, placed: set<nat>, job: Job, keys: seq<string>, target: nat)
    requires Target(g, keys, target) && Incoming(h, placed, job, keys) && AllHoused(g, h, placed)
    ensures AllHoused(Place(g, job, keys, target), h, placed + {job.index})
  {
    hide Holds, InSlot;
    var g' := Place(g, job, keys, target);
    PlaceWidens(g, job, keys, target);
    forall i | i in placed + {job.index} && HasKeys(h, i)
      ensures Housed(g', h, i)
    {
      if i == job.index {
        NewHouse(g', h, job, keys, target);
      } else {
        assert Housed(g, h, i);
        var s: nat :| IsHouse(g, h, i, s);
        SameSlot(g, g'.keyed, h, placed, keys, target, i, s);
        HoldsJoin(g.chains[s], [job], i);
        assert IsHouse(g', h, i, s);
      }
    }
  }

  lemma NewHouse(g': Groups, h: History, job: Job, keys: seq<string>, target: nat)
    requires target < |g'.chains| && g'.serial != Some(target)
    requires job.index in h && KeysOf(h[job.index].concurrency) == (set k | k in keys)
    requires forall k :: k in keys ==> k in g'.keyed && g'.keyed[k] == target
    requires g'.chains[target] != [] && g'.chains[target][|g'.chains[target]| - 1] == job
    ensures Housed(g', h, job.index)
  {
    assert IsHouse(g', h, job.index, target);
  }

  lemma PlaceLinked(g: Groups, h: History, placed: set<nat>, job: Job, keys: seq<string>, target: nat)
    requires Target(g, keys, target) && Incoming(h, placed, job, keys)
    requires KeySlots(g, h, placed) && AllHoused(g, h, placed) && SlotsLinked(g, h, placed)
    ensures SlotsLinked(Place(g, job, keys, target), h, placed + {job.index})
  {
    hide Linked, KeySlots, AllHoused, SlotsLinked, InSlot;
    TargetInRange(g, keys, target);
    var g', n := Place(g, job, keys, target), job.index;
    PlaceWidens(g, job, keys, target);
    forall i, j, s: nat | i in placed + {n} && j in placed + {n} && Roommates(g'.keyed, h, i, j, s)
      ensures Linked(h, i, j)
    {
      if i in placed && j in placed {
        SameSlot(g, g'.keyed, h, placed, keys, target, i, s);
        SameSlot(g, g'.keyed, h, placed, keys, target, j, s);
        OldRoommates(g, h, placed, i, j, s);
      } else if i in placed {
        WithNew(g, g', h, placed, job, keys, target, i, s);
      } else if j in placed {
        WithNew(g, g', h, placed, job, keys, target, j, s);
      } else {
        LinkedSelf(h, n);
      }
    }
    SlotsLinkedDef(g', h, placed + {n});
  }

  lemma WithNew(g: Groups, g': Groups, h: History, placed: set<nat>, job: Job, keys: seq<string>, target: nat, i: nat,
                s: nat)
    requires Target(g, keys, target) && Incoming(h, placed, job, keys) && g' == Place(g, job, keys, target)
    requires KeySlots(g, h, placed) && AllHoused(g, h, placed) && SlotsLinked(g, h, placed)
    requires i in placed && Roommates(g'.keyed, h, i, job.index, s)
    ensures Linked(h, i, job.index) && Linked(h, job.index, i)
  {
    hide Linked, KeySlots, AllHoused, SlotsLinked;
    PlaceWidens(g, job, keys, target);
    SameSlot(g, g'.keyed, h, placed, keys, target, i, s);
    var l :| l in KeysOf(h[job.index].concurrency);
    assert g'.keyed[l] == target;
    var m :| m in KeysOf(h[i].concurrency);
    assert g.keyed[m] == target;
    var k :| k in keys && k in g.keyed;
    ToNew(g, h, placed, job.index, k, i, target);
  }

  lemma ListsMore(h: History, placed: set<nat>, chain: seq<Job>, p: Concurrency -> bool, n: nat)
    requires Lists(h, placed, chain, p) && n in h && !p(h[n].concurrency)
    ensures Lists(h, placed + {n}, chain, p)
  {
  }

  lemma PlaceKeys(g: Groups, h: History, placed: set<nat>, job: Job, keys: seq<string>, target: nat)
    requires Target(g, keys, target) && Incoming(h, placed, job, keys) && KeySlots(g, h, placed)
    ensures KeySlots(Place(g, job, keys, target), h, placed + {job.index})
  {
    var g' := Place(g, job, keys, target);
    PlaceWidens(g, job, keys, target);
    forall k | k in g'.keyed
      ensures Known(h, placed + {job.index}, k)
    {
      if k in g.keyed {
        assert Known(h, placed, k);
      }
    }
  }

  lemma PlaceSerial(g: Groups, h: History, placed: set<nat>, job: Job, keys: seq<string>, target: nat)
    requires Target(g, keys, target) && SerialPart(g, h, placed)
    requires job.index in h && !h[job.index].concurrency.Serial?
    ensures SerialPart(Place(g, job, keys, target), h, placed + {job.index})
  {
    hide Lists;
    if g.serial.Some? {
      ListsMore(h, placed, g.chains[g.serial.value], Alone, job.index);
    }
  }

  lemma PlaceGrouped(g: Groups, h: History, placed: set<nat>, job: Job, keys: seq<string>, target: nat)
    requires Grouped(g, h, placed) && Target(g, keys, target) && Incoming(h, placed, job, keys) && keys != []
    requires !h[job.index].concurrency.Serial? && !Free(h[job.index].concurrency)
    ensures Grouped(Place(g, job, keys, target), h, placed + {job.index})
  {
    hide Lists, KeyChain, AllHoused, SlotsLinked, KeySlots, SerialPart, Target, Assign;
    TargetInRange(g, keys, target);
    var g' := Place(g, job, keys, target);
    ListsMore(h, placed, g.singles, Free, job.index);
    PlaceSerial(g, h, placed, job, keys, target);
    PlaceKeys(g, h, placed, job, keys, target);
    PlaceHoused(g, h, placed, job, keys, target);
    PlaceLinked(g, h, placed, job, keys, target);
    forall s | 0 <= s < |g'.chains| && g'.serial != Some(s)
      ensures KeyChain(g'.keyed, h, placed + {job.index}, s, g'.chains[s])
    {
      PlaceChain(g, h, placed, job, keys, target, s);
    }
  }

  lemma TargetInRange(g: Groups, keys: seq<string>, target: nat)
    requires Target(g, keys, target)
    ensures target < |g.chains|
  {
  }

  // ----- adding as a whole -----

  lemma SpareSlot(g: Groups, h: History, placed: set<nat>)
    requires Grouped(g, h, placed)
    ensures Grouped(g.(chains := g.chains + [[]]), h, placed)
  {
    hide Lists, AllHoused, KeyChains, SlotsLinked, Known;
    var g' := g.(chains := g.chains + [[]]);
    SpareChains(g, h, placed);
    SpareHoused(g, h, placed);
    SpareLinks(g, g', h, placed);
  }

  lemma SpareChains(g: Groups, h: History, placed: set<nat>)
    requires KeyChains(g, h, placed)
    ensures KeyChains(g.(chains := g.chains + [[]]), h, placed)
  {
    hide KeyChain;
    var g' := g.(chains := g.chains + [[]]);
    forall s | 0 <= s < |g'.chains| && g'.serial != Some(s)
      ensures KeyChain(g'.keyed, h, placed, s, g'.chains[s])
    {
      if s < |g.chains| {
        assert KeyChain(g.keyed, h, placed, s, g.chains[s]);
      } else {
        EmptyChain(g'.keyed, h, placed, s);
      }
    }
  }

  lemma SpareHoused(g: Groups, h: History, placed: set<nat>)
    requires AllHoused(g, h, placed)
    ensures AllHoused(g.(chains := g.chains + [[]]), h, placed)
  {
    var g' := g.(chains := g.chains + [[]]);
    forall i | i in placed && HasKeys(h, i)
      ensures Housed(g', h, i)
    {
      assert Housed(g, h, i);
      var s: nat :| IsHouse(g, h, i, s);
      assert IsHouse(g', h, i, s);
    }
  }

  lemma SpareLinks(g: Groups, g': Groups, h: History, placed: set<nat>)
    requires SlotsLinked(g, h, placed) && g'.keyed == g.keyed
    ensures SlotsLinked(g', h, placed)
  {
  }

  lemma SpareTarget(g: Groups, h: History, placed: set<nat>, keys: seq<string>)
    requires Grouped(g, h, placed) && SlotsOf(g.keyed, keys, |keys|) == []
    ensures Target(g.(chains := g.chains + [[]]), keys, |g.chains|)
  {
    forall k | k in keys
      ensures k !in g.keyed
    {
      var i :| 0 <= i < |keys| && keys[i] == k;
      KnownKeyHasSlot(g.keyed, keys, i);
    }
  }

  lemma KnownKeyHasSlot(keyed: map<string, nat>, keys: seq<string>, i: nat)
    requires i < |keys|
    ensures keys[i] in keyed ==> SlotsOf(keyed, keys, |keys|) != []
  {
    SlotsOfMeaning(keyed, keys, |keys|);
    assert keys[i] in keyed ==> keyed[keys[i]] in SlotsOf(keyed, keys, |keys|);
  }

  lemma SlotsReached(g: Groups, h: History, n: nat, keys: seq<string>)
    requires n in h && KeysOf(h[n].concurrency) == set k | k in keys
    ensures KeysReach(g, h, n, SlotsOf(g.keyed, keys, |keys|))
    ensures forall k :: k in keys && k in g.keyed ==> g.keyed[k] in SlotsOf(g.keyed, keys, |keys|)
    ensures Ascending(SlotsOf(g.keyed, keys, |keys|))
  {
    SlotsOfMeaning(g.keyed, keys, |keys|);
    forall s | s in SlotsOf(g.keyed, keys, |keys|)
      ensures Reached(g, h, n, s)
    {
      var i :| 0 <= i < |keys| && keys[i] in g.keyed && g.keyed[keys[i]] == s;
      assert keys[i] in KeysOf(h[n].concurrency);
    }
    forall k | k in keys && k in g.keyed
      ensures g.keyed[k] in SlotsOf(g.keyed, keys, |keys|)
    {
      var i :| 0 <= i < |keys| && keys[i] == k;
      assert keys[i] in g.keyed;
    }
  }

  lemma BridgedTarget(g: Groups, h: History, placed: set<nat>, n: nat, keys: seq<string>, first: nat, rest: seq<nat>)
    requires Grouped(g, h, placed) && n in h && KeysOf(h[n].concurrency) == set k | k in keys
    requires first < |g.chains| && forall i :: 0 <= i < |rest| ==> rest[i] < |g.chains|
    requires Ascending([first] + rest) && KeysReach(g, h, n, [first] + rest)
    requires forall k :: k in keys && k in g.keyed ==> g.keyed[k] in [first] + rest
    ensures Target(BridgeAll(g, first, rest, |rest|), keys, first)
  {
    hide Lists, SerialPart, KeyChains, AllHoused, SlotsLinked, Known, BridgeAll, KeysReach, Ascending;
    FirstApart(first, rest);
    BridgeAllKeyed(g, first, rest, |rest|);
    assert rest[..|rest|] == rest;
    FirstReached(g, h, n, first, rest);
    var k :| k in KeysOf(h[n].concurrency) && k in g.keyed && g.keyed[k] == first;
    assert g.serial != Some(first);
    KeysLead(g.keyed, BridgeAll(g, first, rest, |rest|).keyed, keys, first, rest);
    assert BridgeAll(g, first, rest, |rest|).keyed[k] == first;
  }

  lemma FirstApart(first: nat, rest: seq<nat>)
    requires Ascending([first] + rest)
    ensures first !in rest
  {
    var slots := [first] + rest;
    forall i | 0 <= i < |rest|
      ensures first < rest[i]
    {
      assert slots[0] < slots[i + 1];
    }
  }

  lemma FirstReached(g: Groups, h: History, n: nat, first: nat, rest: seq<nat>)
    requires KeysReach(g, h, n, [first] + rest)
    ensures n in h && Reached(g, h, n, first)
  {
    assert ([first] + rest)[0] in [first] + rest;
  }

  lemma KeysLead(keyed: map<string, nat>, keyed': map<string, nat>, keys: seq<string>, first: nat, rest: seq<nat>)
    requires forall k :: k in keys && k in keyed ==> keyed[k] in [first] + rest
    requires keyed' == map k | k in keyed :: if keyed[k] in rest then first else keyed[k]
    ensures forall k :: k in keys && k in keyed' ==> keyed'[k] == first
  {
  }

  lemma AddKeysGrouped(g: Groups, h: History, placed: set<nat>, job: Job, keys: seq<string>)
    requires Grouped(g, h, placed) && SlotsInRange(g) && Incoming(h, placed, job, keys) && keys != []
    requires !h[job.index].concurrency.Serial? && !Free(h[job.index].concurrency)
    ensures Grouped(AddKeys(g, job, keys), h, placed + {job.index})
  {
    hide Grouped, Target, SlotsOf, Place, BridgeAll, KeysReach;
    var slots := SlotsOf(g.keyed, keys, |keys|);
    if slots == [] {
      SpareSlot(g, h, placed);
      SpareTarget(g, h, placed, keys);
      PlaceGrouped(g.(chains := g.chains + [[]]), h, placed, job, keys, |g.chains|);
    } else {
      SlotsReached(g, h, job.index, keys);
      SlotsOfMeaning(g.keyed, keys, |keys|);
      assert forall i :: 0 <= i < |slots| ==> slots[i] in slots;
      var first, rest := slots[0], slots[1..];
      assert slots == [first] + rest;
      BridgeAllGrouped(g, h, placed, job.index, first, rest, |rest|);
      BridgedTarget(g, h, placed, job.index, keys, first, rest);
      PlaceGrouped(BridgeAll(g, first, rest, |rest|), h, placed, job, keys, first);
    }
  }

  lemma ListsAppend(h: History, placed: set<nat>, chain: seq<Job>, p: Concurrency -> bool, job: Job)
    requires Lists(h, placed, chain, p) && job.index in h && p(h[job.index].concurrency)
    requires job.input == h[job.index].input && job.exclusive == h[job.index].concurrency.Serial?
    requires forall j :: j in placed ==> j < job.index
    ensures Lists(h, placed + {job.index}, chain + [job], p)
  {
    forall i | i in placed + {job.index} && i in h && p(h[i].concurrency)
      ensures Holds(chain + [job], i)
    {
      HoldsJoin(chain, [job], i);
      assert [job][0].index == job.index;
    }
  }

  /** A call without keys changes nothing about the keyed chains. */
  lemma KeylessPlaced(g: Groups, g': Groups, h: History, placed: set<nat>, n: nat)
    requires Grouped(g, h, placed) && n in h && KeysOf(h[n].concurrency) == {}
    requires g'.keyed == g.keyed && |g'.chains| >= |g.chains|
    requires g.serial.Some? ==> g'.serial == g.serial
    requires g'.serial.Some? && g.serial.None? ==> g'.serial.value >= |g.chains|
    requires forall s :: 0 <= s < |g'.chains| && g'.serial != Some(s) ==>
               s < |g.chains| && g'.chains[s] == g.chains[s]
    ensures KeySlots(g', h, placed + {n}) && KeyChains(g', h, placed + {n})
    ensures AllHoused(g', h, placed + {n}) && SlotsLinked(g', h, placed + {n})
  {
    hide Linked, Lists;
    KeylessChains(g, g', h, placed, n);
    KeylessHoused(g, g', h, placed, n);
    KeylessLinks(g, g', h, placed, n);
    forall k | k in g'.keyed
      ensures Known(h, placed + {n}, k)
    {
      assert Known(h, placed, k);
    }
  }

  lemma KeylessChains(g: Groups, g': Groups, h: History, placed: set<nat>, n: nat)
    requires KeyChains(g, h, placed) && g'.keyed == g.keyed
    requires g.serial.Some? ==> g'.serial == g.serial
    requires forall s :: 0 <= s < |g'.chains| && g'.serial != Some(s) ==>
               s < |g.chains| && g'.chains[s] == g.chains[s]
    ensures KeyChains(g', h, placed + {n})
  {
    hide DistinctJobs, KeyOrder;
    forall s | 0 <= s < |g'.chains| && g'.serial != Some(s)
      ensures KeyChain(g'.keyed, h, placed + {n}, s, g'.chains[s])
    {
      assert KeyChain(g.keyed, h, placed, s, g.chains[s]);
    }
  }

  lemma KeylessHoused(g: Groups, g': Groups, h: History, placed: set<nat>, n: nat)
    requires AllHoused(g, h, placed) && !HasKeys(h, n) && g'.keyed == g.keyed && |g'.chains| >= |g.chains|
    requires g'.serial.Some? ==> g'.serial == g.serial || g'.serial.value >= |g.chains|
    requires forall s :: 0 <= s < |g'.chains| && g'.serial != Some(s) ==>
               s < |g.chains| && g'.chains[s] == g.chains[s]
    ensures AllHoused(g', h, placed + {n})
  {
    forall i | i in placed + {n} && HasKeys(h, i)
      ensures Housed(g', h, i)
    {
      assert Housed(g, h, i);
      var s: nat :| IsHouse(g, h, i, s);
      assert IsHouse(g', h, i, s);
    }
  }

  lemma KeylessLinks(g: Groups, g': Groups, h: History, placed: set<nat>, n: nat)
    requires SlotsLinked(g, h, placed) && !HasKeys(h, n) && g'.keyed == g.keyed
    ensures SlotsLinked(g', h, placed + {n})
  {
    hide Linked, InSlot;
  }

  lemma AddFree(g: Groups, h: History, placed: set<nat>, job: Job)
    requires Grouped(g, h, placed) && SlotsInRange(g) && Incoming(h, placed, job, []) && Free(h[job.index].concurrency)
    ensures Grouped(g.(singles := g.singles + [job]), h, placed + {job.index})
  {
    hide Lists, KeySlots, KeyChains, AllHoused, SlotsLinked;
    ListsAppend(h, placed, g.singles, Free, job);
    SpareSerial(g, h, placed, job.index);
    KeylessPlaced(g, g.(singles := g.singles + [job]), h, placed, job.index);
  }

  lemma SpareSerial(g: Groups, h: History, placed: set<nat>, n: nat)
    requires SerialPart(g, h, placed) && n in h && !h[n].concurrency.Serial?
    ensures SerialPart(g, h, placed + {n})
  {
    hide Lists;
    if g.serial.Some? {
      ListsMore(h, placed, g.chains[g.serial.value], Alone, n);
    }
  }

  lemma AddSerial(g: Groups, h: History, placed: set<nat>, job: Job)
    requires Grouped(g, h, placed) && SlotsInRange(g) && h.Keys >= {job.index} && h[job.index].concurrency.Serial?
    requires Incoming(h, placed, job.(exclusive := true), [])
    ensures Grouped(Added(g, job, Serial), h, placed + {job.index})
  {
    hide Lists, KeySlots, KeyChains, AllHoused, SlotsLinked;
    var alone := job.(exclusive := true);
    var before := if g.serial.Some? then g.chains[g.serial.value] else [];
    if g.serial.None? {
      NoneAlone(h, placed);
      assert [] + [alone] == [alone];
    }
    ListsAppend(h, placed, before, Alone, alone);
    ListsMore(h, placed, g.singles, Free, job.index);
    KeylessPlaced(g, Added(g, job, Serial), h, placed, job.index);
  }

  lemma NoneAlone(h: History, placed: set<nat>)
    requires forall i :: i in placed && i in h ==> !h[i].concurrency.Serial?
    ensures Lists(h, placed, [], Alone)
  {
  }

  /** Adding the next call keeps the grouping right. */
  lemma AddGrouped(g: Groups, h: History, n: nat, r: Request)
    requires Grouped(g, h, h.Keys) && n !in h && Newest(h, n)
    ensures SlotsInRange(g)
    ensures Grouped(Added(g, Job(n, r.input, false), r.concurrency), h[n := r], h.Keys + {n})
  {
    hide Grouped;
    GroupedInRange(g, h, h.Keys);
    GroupedAnnounced(g, h, h.Keys, n, r);
    var h', job := h[n := r], Job(n, r.input, false);
    match r.concurrency
    case Parallel =>
      AddFree(g, h', h.Keys, job);
    case Keyed(key) =>
      KeyedIsKeys(g, job, key);
      AddKeysGrouped(g, h', h.Keys, job, [key]);
    case Keys(keys) =>
      if keys == [] {
        AddFree(g, h', h.Keys, job);
      } else {
        AddKeysGrouped(g, h', h.Keys, job, keys);
      }
    case Serial =>
      AddSerial(g, h', h.Keys, job);
  }

  // ----- what the grouping guarantees -----

  /** The calls run in one chain. */
  ghost predicate Together(g: Groups, i: nat, j: nat) {
    exists s :: 0 <= s < |g.chains| && Holds(g.chains[s], i) && Holds(g.chains[s], j)
  }

  lemma HeldInSlot(g: Groups, h: History, s: nat, i: nat)
    requires Grouped(g, h, h.Keys) && s < |g.chains| && Holds(g.chains[s], i) && HasKeys(h, i)
    ensures g.serial != Some(s) && InSlot(g.keyed, h, i, s)
  {
    hide SlotsLinked, AllHoused, KeySlots;
    var x :| 0 <= x < |g.chains[s]| && g.chains[s][x].index == i;
    SerialHeld(g, h, s, x);
    assert g.serial != Some(s) ==> KeyChain(g.keyed, h, h.Keys, s, g.chains[s]);
  }

  lemma SerialHeld(g: Groups, h: History, s: nat, x: nat)
    requires SerialPart(g, h, h.Keys) && s < |g.chains| && x < |g.chains[s]|
    ensures g.serial == Some(s) ==> g.chains[s][x].index in h && h[g.chains[s][x].index].concurrency.Serial?
  {
    hide Increasing;
    assert g.serial == Some(s) ==> Genuine(h, h.Keys, g.chains[s][x]);
  }

  lemma SharedSlot(g: Groups, h: History, i: nat, j: nat, s: nat)
    requires AllHoused(g, h, h.Keys) && Share(h, i, j) && InSlot(g.keyed, h, i, s) && HasKeys(h, i)
    ensures HasKeys(h, j) && InSlot(g.keyed, h, j, s)
  {
    assert Housed(g, h, j);
    var t: nat :| IsHouse(g, h, j, t);
  }

  lemma {:induction false} PathInSlot(g: Groups, h: History, i: nat, j: nat, p: seq<nat>, s: nat)
    requires AllHoused(g, h, h.Keys) && IsLink(h, i, j, p) && InSlot(g.keyed, h, i, s) && HasKeys(h, i)
    ensures HasKeys(h, j) && InSlot(g.keyed, h, j, s)
    decreases |p|
  {
    if |p| > 1 {
      assert Share(h, p[0], p[1]);
      SharedSlot(g, h, i, p[1], s);
      var q := p[1..];
      forall x | 0 <= x < |q| - 1
        ensures Share(h, q[x], q[x + 1])
      {
        assert Share(h, p[x + 1], p[x + 2]);
      }
      PathInSlot(g, h, p[1], j, q, s);
    }
  }

  /** Two keyed calls are in one chain exactly if shared keys link them. */
  lemma TogetherIffLinked(g: Groups, h: History, i: nat, j: nat)
    requires Grouped(g, h, h.Keys) && HasKeys(h, i) && HasKeys(h, j)
    ensures Together(g, i, j) <==> Linked(h, i, j)
  {
    hide Grouped, Linked, InSlot;
    GroupedParts(g, h);
    if Together(g, i, j) {
      var s :| 0 <= s < |g.chains| && Holds(g.chains[s], i) && Holds(g.chains[s], j);
      HeldInSlot(g, h, s, i);
      HeldInSlot(g, h, s, j);
      OldRoommates(g, h, h.Keys, i, j, s);
    }
    if Linked(h, i, j) {
      LinkedIsTogether(g, h, i, j);
    }
  }

  lemma GroupedParts(g: Groups, h: History)
    requires Grouped(g, h, h.Keys)
    ensures AllHoused(g, h, h.Keys) && SlotsLinked(g, h, h.Keys) && KeyChains(g, h, h.Keys)
    ensures SerialPart(g, h, h.Keys) && Lists(h, h.Keys, g.singles, Free)
  {
  }

  lemma LinkedIsTogether(g: Groups, h: History, i: nat, j: nat)
    requires AllHoused(g, h, h.Keys) && Linked(h, i, j) && HasKeys(h, i) && HasKeys(h, j)
    ensures Together(g, i, j)
  {
    assert Housed(g, h, i) && Housed(g, h, j);
    var s: nat :| IsHouse(g, h, i, s);
    var t: nat :| IsHouse(g, h, j, t);
    var p :| IsLink(h, i, j, p);
    PathInSlot(g, h, i, j, p, s);
    assert t == s;
  }

  /** Calls sharing a key run in call order. */
  lemma SharedKeyOrder(g: Groups, h: History, s: nat, x: nat, y: nat)
    requires Grouped(g, h, h.Keys) && s < |g.chains| && x < |g.chains[s]| && y < |g.chains[s]|
    requires Share(h, g.chains[s][x].index, g.chains[s][y].index) && g.chains[s][x].index < g.chains[s][y].index
    ensures x < y
  {
    hide Lists, AllHoused, SlotsLinked, KeySlots;
    if g.serial != Some(s) {
      assert KeyChain(g.keyed, h, h.Keys, s, g.chains[s]);
      ShareBack(h, g.chains[s][x].index, g.chains[s][y].index);
    } else {
      SerialOrder(h, g.chains[s]);
    }
  }

  lemma ShareBack(h: History, i: nat, j: nat)
    ensures Share(h, i, j) <==> Share(h, j, i)
  {
  }

  lemma SerialOrder(h: History, chain: seq<Job>)
    requires Lists(h, h.Keys, chain, Alone)
    ensures forall x, y :: 0 <= x < y < |chain| ==> chain[x].index < chain[y].index
  {
  }

  /** A place where a job can be held. */
  datatype Spot = Single(at: nat) | InChain(chain: nat, at: nat)

  ghost predicate IsSpot(g: Groups, spot: Spot) {
    match spot
    case Single(at) => at < |g.singles|
    case InChain(chain, at) => chain < |g.chains| && at < |g.chains[chain]|
  }

  ghost function At(g: Groups, spot: Spot): Job
    requires IsSpot(g, spot)
  {
    match spot
    case Single(at) => g.singles[at]
    case InChain(chain, at) => g.chains[chain][at]
  }

  lemma SpotGenuine(g: Groups, h: History, spot: Spot)
    requires Grouped(g, h, h.Keys) && IsSpot(g, spot)
    ensures Genuine(h, h.Keys, At(g, spot))
    ensures spot.Single? <==> Free(h[At(g, spot).index].concurrency)
    ensures spot.InChain? && g.serial == Some(spot.chain) <==> h[At(g, spot).index].concurrency.Serial?
  {
    hide AllHoused, SlotsLinked, KeySlots;
    if spot.InChain? && g.serial != Some(spot.chain) {
      assert KeyChain(g.keyed, h, h.Keys, spot.chain, g.chains[spot.chain]);
      assert HasKeys(h, At(g, spot).index);
    }
  }

  /** Every request is held in exactly one place, unchanged. */
  lemma HeldOnce(g: Groups, h: History, a: Spot, b: Spot)
    requires Grouped(g, h, h.Keys) && IsSpot(g, a) && IsSpot(g, b) && At(g, a).index == At(g, b).index
    ensures a == b
  {
    hide Grouped, Genuine, InSlot;
    GroupedParts(g, h);
    SpotGenuine(g, h, a);
    SpotGenuine(g, h, b);
    var i := At(g, a).index;
    SpotIndex(g, h, a);
    if a.InChain? && g.serial != Some(a.chain) {
      assert Holds(g.chains[a.chain], i) && Holds(g.chains[b.chain], i);
      KeyedSpot(g, h, a);
      HeldInSlot(g, h, a.chain, i);
      HeldInSlot(g, h, b.chain, i);
      SlotUnique(g.keyed, h, i, a.chain, b.chain);
      assert KeyChain(g.keyed, h, h.Keys, a.chain, g.chains[a.chain]);
    }
  }

  lemma SpotIndex(g: Groups, h: History, a: Spot)
    requires Grouped(g, h, h.Keys) && IsSpot(g, a)
    ensures At(g, a).index in h
  {
    SpotGenuine(g, h, a);
  }

  lemma KeyedSpot(g: Groups, h: History, a: Spot)
    requires KeyChains(g, h, h.Keys) && IsSpot(g, a) && a.InChain? && g.serial != Some(a.chain)
    ensures HasKeys(h, At(g, a).index)
  {
    assert KeyChain(g.keyed, h, h.Keys, a.chain, g.chains[a.chain]);
  }

  lemma SlotUnique(keyed: map<string, nat>, h: History, i: nat, s: nat, t: nat)
    requires InSlot(keyed, h, i, s) && InSlot(keyed, h, i, t) && HasKeys(h, i)
    ensures s == t
  {
  }

  lemma EachHeld(g: Groups, h: History, i: nat)
    requires Grouped(g, h, h.Keys) && i in h
    ensures exists spot :: IsSpot(g, spot) && At(g, spot) == Job(i, h[i].input, h[i].concurrency.Serial?)
  {
    hide Grouped, InSlot;
    GroupedParts(g, h);
    var spot: Spot;
    if Free(h[i].concurrency) {
      var x :| 0 <= x < |g.singles| && g.singles[x].index == i;
      spot := Single(x);
    } else if h[i].concurrency.Serial? {
      var x :| 0 <= x < |g.chains[g.serial.value]| && g.chains[g.serial.value][x].index == i;
      spot := InChain(g.serial.value, x);
    } else {
      NeitherFree(h, i);
      assert Housed(g, h, i);
      var s: nat :| IsHouse(g, h, i, s);
      var x :| 0 <= x < |g.chains[s]| && g.chains[s][x].index == i;
      spot := InChain(s, x);
    }
    SpotGenuine(g, h, spot);
    assert At(g, spot) == Job(i, h[i].input, h[i].concurrency.Serial?);
  }

  lemma NeitherFree(h: History, i: nat)
    requires i in h && !Free(h[i].concurrency) && !h[i].concurrency.Serial?
    ensures HasKeys(h, i)
  {
    if h[i].concurrency.Keys? {
      assert h[i].concurrency.keys[0] in KeysOf(h[i].concurrency);
    } else {
      assert h[i].concurrency.key in KeysOf(h[i].concurrency);
    }
  }

  /** A drained chain is never used again. */
  lemma DrainedStays(g: Groups, h: History, n: nat, r: Request, s: nat)
    requires Grouped(g, h, h.Keys) && SlotsInRange(g) && s < |g.chains| && g.chains[s] == []
    ensures var g' := Added(g, Job(n, r.input, false), r.concurrency); s < |g'.chains| && g'.chains[s] == []
  {
    hide Lists, SlotsLinked, InSlot;
    NoKeyLeft(g, h, s);
    var job := Job(n, r.input, false);
    match r.concurrency
    case Parallel =>
    case Keyed(key) =>
    case Keys(keys) =>
      if keys != [] {
        DrainedKeys(g, job, keys, s);
      }
    case Serial =>
  }

  lemma NoKeyLeft(g: Groups, h: History, s: nat)
    requires Grouped(g, h, h.Keys) && s < |g.chains| && g.chains[s] == []
    ensures g.serial != Some(s) && forall k :: k in g.keyed ==> g.keyed[k] != s
  {
    hide Lists, SlotsLinked;
    forall k | k in g.keyed
      ensures g.keyed[k] != s
    {
      assert Known(h, h.Keys, k);
      var i :| i in h && k in KeysOf(h[i].concurrency);
      assert Housed(g, h, i);
      var t: nat :| IsHouse(g, h, i, t);
    }
  }

  lemma DrainedKeys(g: Groups, job: Job, keys: seq<string>, s: nat)
    requires SlotsInRange(g) && s < |g.chains| && g.chains[s] == [] && forall k :: k in g.keyed ==> g.keyed[k] != s
    ensures var g' := AddKeys(g, job, keys); s < |g'.chains| && g'.chains[s] == []
  {
    hide BridgeAll, Assign;
    SlotsOfMeaning(g.keyed, keys, |keys|);
    var slots := SlotsOf(g.keyed, keys, |keys|);
    if slots != [] {
      assert forall i :: 0 <= i < |slots| ==> slots[i] in slots;
      BridgeAllDrained(g, slots[0], slots[1..], |slots| - 1, s);
      assert slots[0] in slots;
    }
  }

  lemma {:induction false} BridgeAllDrained(g: Groups, first: nat, rest: seq<nat>, n: nat, s: nat)
    requires n <= |rest| && first < |g.chains| && forall i :: 0 <= i < |rest| ==> rest[i] < |g.chains|
    requires s < |g.chains| && g.chains[s] == [] && s != first
    ensures BridgeAll(g, first, rest, n).chains[s] == []
  {
    if n > 0 {
      BridgeAllDrained(g, first, rest, n - 1, s);
    }
  }

  // ----- the object -----

  /** Jobs are added one call after the other; `history` remembers them. */
  class Grouping {
    var singles: seq<Job>
    var chains: seq<seq<Job>>
    var keyed: map<string, nat>
    var serial: Option<nat>
    ghost var history: History

    ghost function View(): Groups
      reads this
    {
      Groups(singles, chains, keyed, serial)
    }

    ghost predicate Valid()
      reads this
    {
      Grouped(View(), history, history.Keys)
    }

    constructor ()
      ensures Valid() && View() == NoGroups && history == map[]
    {
      singles, chains, keyed, serial, history := [], [], map[], None, map[];
      new;
      NoGroupsGrouped();
      assert history.Keys == {};
    }

    method Add(job: Job, concurrency: Concurrency)
      requires Valid() && !job.exclusive && job.index !in history && Newest(history, job.index)
      modifies this
      ensures Valid()
      ensures SlotsInRange(old(View())) && View() == Added(old(View()), job, concurrency)
      ensures history == old(history)[job.index := Request(job.input, concurrency)]
    {
      hide Grouped;
      ghost var g := View();
      ghost var r := Request(job.input, concurrency);
      AddGrouped(g, history, job.index, r);
      assert history[job.index := r].Keys == history.Keys + {job.index};
      history := history[job.index := r];
      match concurrency
      case Parallel => singles := singles + [job];
      case Keyed(key) =>
        if key in keyed {
          chains := chains[keyed[key] := chains[keyed[key]] + [job]];
        } else {
          keyed := keyed[key := |chains|];
          chains := chains + [[job]];
        }
      case Keys(keys) =>
        if keys == [] {
          singles := singles + [job];
        } else {
          AddWithKeys(job, keys);
        }
      case Serial =>
        var alone := job.(exclusive := true);
        if serial.Some? {
          chains := chains[serial.value := chains[serial.value] + [alone]];
        } else {
          serial := Some(|chains|);
          chains := chains + [[alone]];
        }
    }

    method AddWithKeys(job: Job, keys: seq<string>)
      requires SlotsInRange(View())
      modifies this`chains, this`keyed
      ensures View() == AddKeys(old(View()), job, keys)
    {
      ghost var g := View();
      SlotsOfMeaning(keyed, keys, |keys|);
      var slots := CollectSlots(keyed, keys);
      var target;
      if slots == [] {
        target := |chains|;
        chains := chains + [[]];
      } else {
        assert forall i :: 0 <= i < |slots| ==> slots[i] in slots;
        target := slots[0];
        BridgeChains(target, slots[1..]);
      }
      ghost var bridged := View();
      for k := 0 to |keys|
        invariant keyed == Assign(bridged.keyed, keys, k, target) && View() == bridged.(keyed := keyed)
      {
        keyed := keyed[keys[k] := target];
      }
      chains := chains[target := chains[target] + [job]];
    }

    method BridgeChains(first: nat, rest: seq<nat>)
      requires first < |chains| && forall i :: 0 <= i < |rest| ==> rest[i] < |chains|
      requires first !in rest
      modifies this`chains, this`keyed
      ensures View() == BridgeAll(old(View()), first, rest, |rest|)
    {
      ghost var g := View();
      for k := 0 to |rest|
        invariant View() == BridgeAll(g, first, rest, k).(keyed := g.keyed)
      {
        var bridged := chains[rest[k]];
        chains := chains[first := chains[first] + bridged][rest[k] := []];
      }
      BridgeAllKeyed(g, first, rest, |rest|);
      assert rest[..|rest|] == rest;
      keyed := map k | k in keyed :: if keyed[k] in rest then first else keyed[k];
    }
  }

  method CollectSlots(keyed: map<string, nat>, keys: seq<string>) returns (slots: seq<nat>)
    ensures slots == SlotsOf(keyed, keys, |keys|)
  {
    slots := [];
    for k := 0 to |keys|
      invariant slots == SlotsOf(keyed, keys, k)
    {
      if keys[k] in keyed {
        slots := InsertSlot(slots, keyed[keys[k]]);
      }
    }
  }
}
