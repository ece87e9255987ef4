/**
 * Least-loaded node selection. Every node server keeps, in the key/value store, a use counter
 * per kind of request under the key `"{Url}_{selection}"`; selection picks an eligible server
 * with the lowest counter, and registering or releasing a use moves the counter by one.
 */
module NodeSelector {
  import opened Wrappers
  import opened Text
  import opened MemStore

  /** A C# `int`. */
  newtype int32 = x: int | -0x8000_0000 <= x < 0x8000_0000

  const MaxInt32: int32 := 0x7FFF_FFFF
  const MinInt32: int32 := -0x8000_0000

  /** `x + 1` in unchecked 32-bit arithmetic: `int.MaxValue` wraps to `int.MinValue`. */
  function Inc32(x: int32): (r: int32)
    ensures x < MaxInt32 ==> r as int == x as int + 1
    ensures x == MaxInt32 ==> r == MinInt32
  {
    if x == MaxInt32 then MinInt32 else x + 1
  }

  /** `x - 1` in unchecked 32-bit arithmetic: `int.MinValue` wraps to `int.MaxValue`. */
  function Dec32(x: int32): (r: int32)
    ensures x > MinInt32 ==> r as int == x as int - 1
    ensures x == MinInt32 ==> r == MaxInt32
  {
    if x == MinInt32 then MaxInt32 else x - 1
  }

  /** A node server and the kinds of request it serves. */
  datatype NodeServer = NodeServer(url: string, apiKey: string, gpt: bool, embedding: bool, vision: bool)

  /** The use counters, as held by the key/value store. */
  type Counters = map<string, Option<int32>>

  const EmptySelection := ArgumentException("Selection cannot be null or empty")
  const InvalidSelection := ArgumentException("Invalid selection")

  /** The lower-cased selections that name a kind of request. */
  predicate IsKind(lowered: string) {
    lowered == "gpt" || lowered == "embedding" || lowered == "vision"
  }

  /** A server can take requests of the (lower-cased) kind: it has the flag and a non-empty Url. */
  predicate Eligible(server: NodeServer, kind: string) {
    && (if kind == "gpt" then server.gpt else if kind == "embedding" then server.embedding else server.vision)
    && server.url != ""
  }

  /** The eligible servers, in list order. */
  function Filter(servers: seq<NodeServer>, kind: string): (r: seq<NodeServer>)
    ensures |r| <= |servers|
    ensures forall s :: s in r <==> s in servers && Eligible(s, kind)
  {
    if servers == [] then []
    else (if Eligible(servers[0], kind) then [servers[0]] else []) + Filter(servers[1..], kind)
  }

  /** The servers eligible for a selection, in list order. */
  function Candidates(servers: seq<NodeServer>, selection: string): seq<NodeServer> {
    Filter(servers, ToLower(selection))
  }

  /** The counter key of a server: the selection is used as given, not lower-cased. */
  function CounterKey(node: NodeServer, selection: string): string {
    node.url + "_" + selection
  }

  /** The counter under a key; an absent key or a null value counts as 0. */
  function Count(data: Counters, key: string): int32 {
    Lookup(data, key).GetOr(0)
  }

  /** The load of a server for a selection. */
  function Load(data: Counters, selection: string, s: NodeServer): int32 {
    Count(data, CounterKey(s, selection))
  }

  /**
   * The scan over the candidates: a candidate replaces the current choice when its load is
   * strictly below the lowest seen so far.
   */
  function Scan(cs: seq<NodeServer>, data: Counters, selection: string, best: Option<NodeServer>, lowest: int32): Option<NodeServer>
  {
    if cs == [] then best
    else if Load(data, selection, cs[0]) < lowest then Scan(cs[1..], data, selection, Some(cs[0]), Load(data, selection, cs[0]))
    else Scan(cs[1..], data, selection, best, lowest)
  }

  /** The outcome of `SelectNode`. */
  function Selected(servers: seq<NodeServer>, selection: Option<string>, data: Counters): Result<Option<NodeServer>> {
    if IsNullOrEmpty(selection) then Err(EmptySelection)
    else if !IsKind(ToLower(selection.value)) then Err(InvalidSelection)
    else
      var cs := Candidates(servers, selection.value);
      if cs == [] then Ok(None) else Ok(Scan(cs, data, selection.value, None, MaxInt32))
  }

  /**
   * Picks the least-loaded eligible server. The lowest load starts at `int.MaxValue` and only a
   * strictly lower load is taken, so a server whose counter is `int.MaxValue` is never picked.
   */
  method SelectNode(servers: seq<NodeServer>, selection: Option<string>, store: MemDataStore<int32>) returns (r: Result<Option<NodeServer>>)
    ensures r == Selected(servers, selection, store.data)
  {
    if IsNullOrEmpty(selection) {
      return Err(EmptySelection);
    }
    var kind := ToLower(selection.value);
    if !IsKind(kind) {
      return Err(InvalidSelection);
    }
    var filtered := Candidates(servers, selection.value);
    if filtered == [] {
      return Ok(None);
    }
    var selectedServer: Option<NodeServer> := None;
    var lowestCount := MaxInt32;
    for i := 0 to |filtered|
      invariant Scan(filtered[i..], store.data, selection.value, selectedServer, lowestCount)
             == Scan(filtered, store.data, selection.value, None, MaxInt32)
    {
      assert filtered[i..][1..] == filtered[i + 1..];
      var stored := store.GetData(CounterKey(filtered[i], selection.value));
      var count := stored.GetOr(0);
      if count < lowestCount {
        lowestCount := count;
        selectedServer := Some(filtered[i]);
      }
    }
    assert filtered[|filtered|..] == [];
    return Ok(selectedServer);
  }

  /** The store after `RegisterNodeUse`: the counter goes up by one (with wrap-around). */
  function Registered(data: Counters, node: NodeServer, selection: Option<string>): Result<Counters> {
    if IsNullOrEmpty(selection) then Err(EmptySelection)
    else if !IsKind(ToLower(selection.value)) then Err(InvalidSelection)
    else
      var key := CounterKey(node, selection.value);
      Ok(data[key := Some(Inc32(Count(data, key)))])
  }

  /**
   * The store after `UnregisterNodeUse`: a zero counter is left alone before the selection is
   * checked; any other counter goes down by one (with wrap-around).
   */
  function Unregistered(data: Counters, node: NodeServer, selection: Option<string>): Result<Counters> {
    if IsNullOrEmpty(selection) then Err(EmptySelection)
    else
      var key := CounterKey(node, selection.value);
      if Count(data, key) == 0 then Ok(data)
      else if !IsKind(ToLower(selection.value)) then Err(InvalidSelection)
      else Ok(data[key := Some(Dec32(Count(data, key)))])
  }

  /** Records one more use of `node`; an invalid selection throws and leaves the store as it was. */
  method RegisterNodeUse(node: NodeServer, selection: Option<string>, store: MemDataStore<int32>) returns (r: Result<bool>)
    modifies store
    ensures r.Err? <==> Registered(old(store.data), node, selection).Err?
    ensures r.Err? ==> r.error == Registered(old(store.data), node, selection).error && store.data == old(store.data)
    ensures r.Ok? ==> r.value && store.data == Registered(old(store.data), node, selection).value
  {
    if IsNullOrEmpty(selection) {
      return Err(EmptySelection);
    }
    var lowered := ToLower(selection.value);
    var key := CounterKey(node, selection.value);
    var stored := store.GetData(key);
    var count := stored.GetOr(0);
    if IsKind(lowered) {
      count := Inc32(count);
      var updated := store.UpdateData(key, Some(count), true);
      return Ok(updated);
    } else {
      return Err(InvalidSelection);
    }
  }

  /** Releases one use of `node`; a zero counter is left alone and the answer is true. */
  method UnregisterNodeUse(node: NodeServer, selection: Option<string>, store: MemDataStore<int32>) returns (r: Result<bool>)
    modifies store
    ensures r.Err? <==> Unregistered(old(store.data), node, selection).Err?
    ensures r.Err? ==> r.error == Unregistered(old(store.data), node, selection).error && store.data == old(store.data)
    ensures r.Ok? ==> r.value && store.data == Unregistered(old(store.data), node, selection).value
  {
    if IsNullOrEmpty(selection) {
      return Err(EmptySelection);
    }
    var lowered := ToLower(selection.value);
    var key := CounterKey(node, selection.value);
    var stored := store.GetData(key);
    var count := stored.GetOr(0);
    if count == 0 {
      return Ok(true);
    }
    if IsKind(lowered) {
      count := Dec32(count);
      var updated := store.UpdateData(key, Some(count), true);
      return Ok(updated);
    } else {
      return Err(InvalidSelection);
    }
  }

  // ---------------------------------------------------------------------------------------------
  // Properties

  /** `cs[i]` has minimal load among `cs`, and every earlier candidate has a strictly higher load. */
  predicate EarliestMinimum(cs: seq<NodeServer>, data: Counters, selection: string, i: int) {
    && 0 <= i < |cs|
    && (forall j | 0 <= j < |cs| :: Load(data, selection, cs[j]) >= Load(data, selection, cs[i]))
    && (forall j | 0 <= j < i :: Load(data, selection, cs[j]) > Load(data, selection, cs[i]))
  }

  lemma HeadIsEarliestMinimum(cs: seq<NodeServer>, data: Counters, selection: string)
    requires cs != []
    requires forall j | 0 <= j < |cs| - 1 :: Load(data, selection, cs[1..][j]) >= Load(data, selection, cs[0])
    ensures EarliestMinimum(cs, data, selection, 0)
  {
    forall j | 0 <= j < |cs| ensures Load(data, selection, cs[j]) >= Load(data, selection, cs[0]) {
      if j > 0 { assert cs[j] == cs[1..][j - 1]; }
    }
  }

  lemma ShiftEarliestMinimum(cs: seq<NodeServer>, data: Counters, selection: string, i: int)
    requires cs != [] && EarliestMinimum(cs[1..], data, selection, i)
    requires Load(data, selection, cs[0]) > Load(data, selection, cs[1..][i])
    ensures EarliestMinimum(cs, data, selection, i + 1)
  {
    var rest := cs[1..];
    assert cs[i + 1] == rest[i];
    forall j | 0 <= j < |cs| ensures Load(data, selection, cs[j]) >= Load(data, selection, rest[i]) {
      if j > 0 { assert cs[j] == rest[j - 1]; }
    }
    forall j | 0 <= j < i + 1 ensures Load(data, selection, cs[j]) > Load(data, selection, rest[i]) {
      if j > 0 { assert cs[j] == rest[j - 1]; }
    }
  }

  /** When no candidate's load is below `lowest`, the scan keeps its current choice. */
  lemma {:induction false} ScanKeepsChoice(cs: seq<NodeServer>, data: Counters, selection: string, best: Option<NodeServer>, lowest: int32)
    requires forall j | 0 <= j < |cs| :: Load(data, selection, cs[j]) >= lowest
    ensures Scan(cs, data, selection, best, lowest) == best
    decreases |cs|
  {
    if cs != [] {
      assert forall j | 0 <= j < |cs| - 1 :: cs[1..][j] == cs[j + 1];
      ScanKeepsChoice(cs[1..], data, selection, best, lowest);
    }
  }

  /** When some candidate's load is below `lowest`, the scan picks the earliest of minimal load. */
  lemma {:induction false} ScanPicksEarliestMinimum(cs: seq<NodeServer>, data: Counters, selection: string, best: Option<NodeServer>, lowest: int32)
    requires exists j | 0 <= j < |cs| :: Load(data, selection, cs[j]) < lowest
    ensures exists i | 0 <= i < |cs| ::
              && Scan(cs, data, selection, best, lowest) == Some(cs[i])
              && Load(data, selection, cs[i]) < lowest
              && EarliestMinimum(cs, data, selection, i)
    decreases |cs|
  {
    var l0 := Load(data, selection, cs[0]);
    var rest := cs[1..];
    if l0 < lowest {
      if exists j | 0 <= j < |rest| :: Load(data, selection, rest[j]) < l0 {
        ScanPicksEarliestMinimum(rest, data, selection, Some(cs[0]), l0);
        var i :| 0 <= i < |rest| && Scan(rest, data, selection, Some(cs[0]), l0) == Some(rest[i])
                 && Load(data, selection, rest[i]) < l0 && EarliestMinimum(rest, data, selection, i);
        ShiftEarliestMinimum(cs, data, selection, i);
        assert cs[i + 1] == rest[i];
      } else {
        ScanKeepsChoice(rest, data, selection, Some(cs[0]), l0);
        HeadIsEarliestMinimum(cs, data, selection);
      }
    } else {
      var j :| 0 <= j < |cs| && Load(data, selection, cs[j]) < lowest;
      assert rest[j - 1] == cs[j];
      ScanPicksEarliestMinimum(rest, data, selection, best, lowest);
      var i :| 0 <= i < |rest| && Scan(rest, data, selection, best, lowest) == Some(rest[i])
               && Load(data, selection, rest[i]) < lowest && EarliestMinimum(rest, data, selection, i);
      ShiftEarliestMinimum(cs, data, selection, i);
      assert cs[i + 1] == rest[i];
    }
  }

  /** Selection throws exactly for a null or empty selection or one that names no kind of request. */
  lemma SelectionErrors(servers: seq<NodeServer>, selection: Option<string>, data: Counters)
    ensures Selected(servers, selection, data).Err?
        <==> IsNullOrEmpty(selection) || !IsKind(ToLower(selection.value))
    ensures IsNullOrEmpty(selection) ==> Selected(servers, selection, data) == Err(EmptySelection)
  {
  }

  /**
   * A valid selection returns null exactly when no eligible server has a counter below
   * `int.MaxValue` (in particular when no server is eligible); otherwise it returns an eligible
   * server of minimal load, the earliest in the list among those of that load.
   */
  lemma SelectionIsLeastLoaded(servers: seq<NodeServer>, selection: Option<string>, data: Counters)
    requires !IsNullOrEmpty(selection) && IsKind(ToLower(selection.value))
    ensures Selected(servers, selection, data).Ok?
    ensures Selected(servers, selection, data).value.None?
        <==> forall s | s in Candidates(servers, selection.value) :: Load(data, selection.value, s) == MaxInt32
    ensures Selected(servers, selection, data).value.Some? ==>
        exists i | 0 <= i < |Candidates(servers, selection.value)| ::
          && Selected(servers, selection, data).value == Some(Candidates(servers, selection.value)[i])
          && Eligible(Candidates(servers, selection.value)[i], ToLower(selection.value))
          && Load(data, selection.value, Candidates(servers, selection.value)[i]) < MaxInt32
          && EarliestMinimum(Candidates(servers, selection.value), data, selection.value, i)
  {
    var cs := Candidates(servers, selection.value);
    if exists j | 0 <= j < |cs| :: Load(data, selection.value, cs[j]) < MaxInt32 {
      ScanPicksEarliestMinimum(cs, data, selection.value, None, MaxInt32);
      var i :| 0 <= i < |cs| && Scan(cs, data, selection.value, None, MaxInt32) == Some(cs[i])
               && Load(data, selection.value, cs[i]) < MaxInt32 && EarliestMinimum(cs, data, selection.value, i);
      assert cs[i] in cs;
    } else {
      ScanKeepsChoice(cs, data, selection.value, None, MaxInt32);
    }
  }

  /** Registering a use changes only the server's own counter, and raises it by exactly one. */
  lemma RegisterAddsOne(data: Counters, node: NodeServer, selection: Option<string>)
    requires !IsNullOrEmpty(selection) && IsKind(ToLower(selection.value))
    requires Count(data, CounterKey(node, selection.value)) < MaxInt32
    ensures Registered(data, node, selection).Ok?
    ensures var d := Registered(data, node, selection).value;
      && Count(d, CounterKey(node, selection.value)) as int == Count(data, CounterKey(node, selection.value)) as int + 1
      && forall k :: k != CounterKey(node, selection.value) ==> Lookup(d, k) == Lookup(data, k)
  {
  }

  /** Releasing a use never takes a non-negative counter below zero. */
  lemma UnregisterStaysNonNegative(data: Counters, node: NodeServer, selection: Option<string>)
    requires !IsNullOrEmpty(selection)
    requires Count(data, CounterKey(node, selection.value)) >= 0
    ensures Unregistered(data, node, selection).Ok? ==>
      Count(Unregistered(data, node, selection).value, CounterKey(node, selection.value)) >= 0
  {
  }

  /** Releasing a use right after registering one restores the counter (unless it was -1). */
  lemma RegisterThenUnregister(data: Counters, node: NodeServer, selection: Option<string>)
    requires !IsNullOrEmpty(selection) && IsKind(ToLower(selection.value))
    requires Count(data, CounterKey(node, selection.value)) != -1
    ensures Registered(data, node, selection).Ok?
    ensures Unregistered(Registered(data, node, selection).value, node, selection).Ok?
    ensures Count(Unregistered(Registered(data, node, selection).value, node, selection).value, CounterKey(node, selection.value))
         == Count(data, CounterKey(node, selection.value))
  {
  }
}
