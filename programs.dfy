/** The program manager (program.rs): the records of one program found in a
    range of blocks, the resolution of a program's imports from the chain,
    and the loading of those imports into a VM.

    `get_program_records` walks the same aligned windows as `scan_records`,
    with no early stop.  Import resolution is a depth-first search that
    fills an insertion-ordered map; its checks for circular dependencies
    build an error and drop it, so they change nothing, and it terminates
    only on an acyclic import graph, which its callers must supply. */
module Programs {
  import opened Wrappers
  import opened Lib
  import opened Snarkvm
  import opened Chain
  import opened Windows
  import opened Scans
  import opened Accounts
  import opened Agents
  import opened IndexMaps

  /* ---------- get_program_records ---------- */

  /** The ownership test of `get_program_records`: against the x-coordinate
      of the address of the account's view key. */
  predicate OwnedByViewKey(env: Env, c: CiphertextRecord) {
    env.rops.isOwner(c, env.account.viewKey, env.rops.xCoordinate(env.rops.addressOfViewKey(env.account.viewKey)))
  }

  /** When `get_program_records` keeps a pair: owned, and with `unspentOnly`
      also a serial number that derives and that no transition is found for. */
  predicate KeptForProgram(env: Env, unspentOnly: bool, p: (Field, CiphertextRecord)) {
    OwnedByViewKey(env, p.1)
    && (unspentOnly ==>
          var sn := env.rops.serialNumber(env.account.privateKey, p.0);
          sn.Ok? && !SpentOnChain(env, sn.value))
  }

  /** The records of the transitions of program `pid`, in order. */
  function ProgramPairs(pid: ProgramId, ts: seq<Transition>): (ps: seq<(Field, CiphertextRecord)>)
    ensures forall x :: x in ps <==> exists i :: 0 <= i < |ts| && ts[i].programId == pid && x in ts[i].records
  {
    if ts == [] then []
    else
      var rest := ProgramPairs(pid, ts[1..]);
      assert forall x :: x in rest <==> exists i :: 1 <= i < |ts| && ts[i].programId == pid && x in ts[i].records by {
        forall x | x in rest
          ensures exists i :: 1 <= i < |ts| && ts[i].programId == pid && x in ts[i].records
        {
          var i :| 0 <= i < |ts[1..]| && ts[1..][i].programId == pid && x in ts[1..][i].records;
          assert ts[i + 1] == ts[1..][i];
        }
        forall x | exists i :: 1 <= i < |ts| && ts[i].programId == pid && x in ts[i].records
          ensures x in rest
        {
          var i :| 1 <= i < |ts| && ts[i].programId == pid && x in ts[i].records;
          assert ts[1..][i - 1] == ts[i];
        }
      }
      (if ts[0].programId == pid then ts[0].records else []) + rest
  }

  /** The `filter_map` of `get_program_records`: the pairs it keeps, in order,
      still encrypted. */
  function KeptPairs(env: Env, unspentOnly: bool, ps: seq<(Field, CiphertextRecord)>): (kept: seq<(Field, CiphertextRecord)>)
    ensures forall x :: x in kept <==> x in ps && KeptForProgram(env, unspentOnly, x)
  {
    if ps == [] then []
    else
      var rest := KeptPairs(env, unspentOnly, ps[1..]);
      assert ps == [ps[0]] + ps[1..];
      (if KeptForProgram(env, unspentOnly, ps[0]) then [ps[0]] else []) + rest
  }

  /** What one window contributes to `get_program_records`, or its request error. */
  function WindowProgramRecords(env: Env, pid: ProgramId, unspentOnly: bool, w: Window): Result<seq<(Field, CiphertextRecord)>> {
    var blocks :- GetBlocksInRange(env.baseUrl, env.network, env.node, w.lo, w.hi);
    Ok(KeptPairs(env, unspentOnly, ProgramPairs(pid, BlocksTransitions(blocks))))
  }

  /** The request of one window, as the generic scan takes it. */
  function ProgramFetch(env: Env, pid: ProgramId, unspentOnly: bool): Window -> Result<seq<(Field, CiphertextRecord)>> {
    w => WindowProgramRecords(env, pid, unspentOnly, w)
  }

  /** `get_program_records(start..end, unspent_only)` and the windows it
      requests: the scan over the aligned windows with nothing weighed and no
      limit, which stops only at a request error. */
  function ProgramRecords(env: Env, pid: ProgramId, start: u32, end: u32, unspentOnly: bool)
    : Scan<Result<seq<(Field, CiphertextRecord)>>>
  {
    WeightScan(ProgramFetch(env, pid, unspentOnly), NoWeight, AlignedWindows(start, end), 0, None)
  }

  /** `get_program_records` requests a prefix of the aligned windows, each
      passing the range guard, and returns their records in window order; it
      has no early stop, so when it succeeds it requested every window. */
  lemma ProgramRecordsWindows(env: Env, pid: ProgramId, start: u32, end: u32, unspentOnly: bool)
    ensures var sc := ProgramRecords(env, pid, start, end, unspentOnly);
            var ws := AlignedWindows(start, end);
            |sc.fetched| <= |ws| && sc.fetched == ws[..|sc.fetched|]
            && (ws != [] ==> |sc.fetched| >= 1)
            && (forall w :: w in sc.fetched ==> CheckBlockRange(w.lo, w.hi).Ok?)
            && sc.result == AllFound(ProgramFetch(env, pid, unspentOnly), sc.fetched)
            && (sc.result.Ok? ==> sc.fetched == ws)
  {
    var fetch := ProgramFetch(env, pid, unspentOnly);
    var ws := AlignedWindows(start, end);
    var sc := ProgramRecords(env, pid, start, end, unspentOnly);
    AlignedWindowsPassGuard(start, end);
    NoWeightAdditive<(Field, CiphertextRecord)>();
    WeightScanPrefix(fetch, NoWeight, ws, 0, None);
    WeightScanReturnsFound(fetch, NoWeight, ws, 0, None);
    WeightScanNoLimit(fetch, NoWeight, ws, 0);
    forall w | w in sc.fetched
      ensures CheckBlockRange(w.lo, w.hi).Ok?
    {
      var i :| 0 <= i < |sc.fetched| && sc.fetched[i] == w;
      assert ws[i] == w;
    }
  }

  /** A failed `get_program_records` failed at the block request of the last
      window it requested, every earlier one having succeeded. */
  lemma ProgramRecordsFailure(env: Env, pid: ProgramId, start: u32, end: u32, unspentOnly: bool)
    ensures var sc := ProgramRecords(env, pid, start, end, unspentOnly);
            sc.result.Err? ==>
              |sc.fetched| >= 1
              && var last := sc.fetched[|sc.fetched| - 1];
                 GetBlocksInRange(env.baseUrl, env.network, env.node, last.lo, last.hi) == Err(sc.result.msg)
                 && forall j :: 0 <= j < |sc.fetched| - 1 ==>
                      GetBlocksInRange(env.baseUrl, env.network, env.node, sc.fetched[j].lo, sc.fetched[j].hi).Ok?
  {
    var fetch := ProgramFetch(env, pid, unspentOnly);
    var sc := ProgramRecords(env, pid, start, end, unspentOnly);
    WeightScanFailsLast(fetch, NoWeight, AlignedWindows(start, end), 0, None);
    if sc.result.Err? {
      var init := sc.fetched[..|sc.fetched| - 1];
      AllFoundRequests(fetch, init);
      forall j | 0 <= j < |sc.fetched| - 1
        ensures GetBlocksInRange(env.baseUrl, env.network, env.node, sc.fetched[j].lo, sc.fetched[j].hi).Ok?
      {
        assert init[j] == sc.fetched[j];
        assert fetch(init[j]).Ok?;
      }
    }
  }

  /** A `get_program_records` that succeeds holds exactly the pairs of the
      transitions of program `pid` in the blocks of its windows that pass
      the ownership test, and with `unspentOnly` the spend check. */
  lemma ProgramRecordsMembers(env: Env, pid: ProgramId, start: u32, end: u32, unspentOnly: bool,
                              x: (Field, CiphertextRecord))
    requires ProgramRecords(env, pid, start, end, unspentOnly).result.Ok?
    ensures var sc := ProgramRecords(env, pid, start, end, unspentOnly);
            x in sc.result.value <==>
            KeptForProgram(env, unspentOnly, x)
            && exists j :: 0 <= j < |sc.fetched|
                 && GetBlocksInRange(env.baseUrl, env.network, env.node, sc.fetched[j].lo, sc.fetched[j].hi).Ok?
                 && x in ProgramPairs(pid, BlocksTransitions(
                           GetBlocksInRange(env.baseUrl, env.network, env.node, sc.fetched[j].lo, sc.fetched[j].hi).value))
  {
    var fetch := ProgramFetch(env, pid, unspentOnly);
    var sc := ProgramRecords(env, pid, start, end, unspentOnly);
    ProgramRecordsWindows(env, pid, start, end, unspentOnly);
    AllFoundMembers(fetch, sc.fetched, x);
  }

  /** Without `unspentOnly` no transition is looked up: what a window gives
      does not depend on the node's transition lookups. */
  lemma WindowWithoutLookups(env: Env, pid: ProgramId, w: Window, lookup: string -> Result<TransitionId>)
    ensures WindowProgramRecords(env, pid, false, w)
            == WindowProgramRecords(env.(node := env.node.(transitionId := lookup)), pid, false, w)
  {
    var env' := env.(node := env.node.(transitionId := lookup));
    var blocks := GetBlocksInRange(env.baseUrl, env.network, env.node, w.lo, w.hi);
    assert blocks == GetBlocksInRange(env'.baseUrl, env'.network, env'.node, w.lo, w.hi);
    if blocks.Ok? {
      KeptPairsIgnoresLookups(env, lookup, ProgramPairs(pid, BlocksTransitions(blocks.value)));
    }
  }

  lemma {:induction false} KeptPairsIgnoresLookups(env: Env, lookup: string -> Result<TransitionId>,
                                                   ps: seq<(Field, CiphertextRecord)>)
    ensures KeptPairs(env, false, ps) == KeptPairs(env.(node := env.node.(transitionId := lookup)), false, ps)
    decreases |ps|
  {
    if ps != [] {
      KeptPairsIgnoresLookups(env, lookup, ps[1..]);
    }
  }

  /** The program manager: an agent and the id of the program it manages. */
  class ProgramManager {
    const agent: Agent
    const programId: ProgramId

    /** `ProgramManager::new`. */
    constructor (agent: Agent, programId: ProgramId)
      ensures this.agent == agent && this.programId == programId
    {
      this.agent := agent;
      this.programId := programId;
    }

    /** `get_program_records`: walk up from `start` rounded down to a
        multiple of 50 in 50-block windows, keeping the program's owned
        records (and with `unspentOnly` only the unspent ones), until `end`.
        The loop's upper limit `end + (50 - end % 50)` must fit in a `u32`. */
    method GetProgramRecords(rops: RecordOps, node: Node, start: u32, end: u32, unspentOnly: bool)
      returns (r: Result<seq<(Field, CiphertextRecord)>>, fetched: seq<Window>)
      requires AlignedLimitFits(end)
      ensures Scan(r, fetched) == ProgramRecords(agent.EnvWith(rops, node), programId, start, end, unspentOnly)
    {
      var env := agent.EnvWith(rops, node);
      var startBlockHeight: u32 := start - start % ALIGNED_STEP;
      var endBlockHeight: u32 := end + (ALIGNED_STEP - end % ALIGNED_STEP);
      var records: seq<(Field, CiphertextRecord)> := [];
      fetched := [];
      var s: nat := startBlockHeight;
      ghost var fetch := ProgramFetch(env, programId, unspentOnly);
      ghost var spec := ProgramRecords(env, programId, start, end, unspentOnly);
      ghost var ahead := AscendingFrom(s, end);
      WeightScanBegins(fetch, NoWeight, ahead, None);
      while s < endBlockHeight
        invariant ahead == AscendingFrom(s, end)
        invariant WeightScanLeft(fetch, NoWeight, spec, records, fetched, ahead, 0, None)
        decreases endBlockHeight - s
      {
        if s >= end {
          break;
        }
        var endHeight: u32 := if s + ALIGNED_STEP > end then end else s + ALIGNED_STEP;
        var w := Window(s, endHeight);
        ghost var tail := AscendingFrom(s + ALIGNED_STEP, end);
        assert ahead == [w] + tail;
        var found := WindowProgramRecords(env, programId, unspentOnly, w);
        if found.Err? {
          WeightScanFails(fetch, NoWeight, spec, records, fetched, w, tail, 0, None);
          return Err(found.msg), fetched + [w];
        }
        WeightScanAdvances(fetch, NoWeight, spec, records, fetched, w, tail, 0, found.value, 0, None);
        records, fetched := records + found.value, fetched + [w];
        s := s + ALIGNED_STEP;
        ahead := tail;
      }
      assert ahead == [];
      WeightScanEnds(fetch, NoWeight, spec, records, fetched, 0, None);
      r := Ok(records);
    }
  }

  /* ---------- get_program_from_chain ---------- */

  /** A program as import resolution sees it: its id and the ids it imports,
      in declaration order. */
  datatype Program = Program(id: ProgramId, imports: seq<ProgramId>)

  /** The request of `get_program_from_chain`: always the default node and
      network, whatever the agent's. */
  function ProgramUrl(id: ProgramId): string {
    DEFAULT_BASE_URL + "/" + DEFAULT_TESTNET + "/program/" + id
  }

  /** Different programs are different requests. */
  lemma ProgramUrlInjective(a: ProgramId, b: ProgramId)
    requires ProgramUrl(a) == ProgramUrl(b)
    ensures a == b
  {
    StripPrefix(DEFAULT_BASE_URL + "/" + DEFAULT_TESTNET + "/program/", a, b);
  }

  /** `get_program_from_chain`: the GET of the program's URL, decoded. */
  function GetProgramFromChain(get: string -> Result<Program>, id: ProgramId): Result<Program> {
    get(ProgramUrl(id))
  }

  /* ---------- get_import_programs_from_chain ---------- */

  /** `rank` decreases along every import edge of the programs on chain: the
      import graph is acyclic.  The source recurses forever on a cycle. */
  ghost predicate Ranked(get: string -> Result<Program>, rank: ProgramId -> nat) {
    forall i, j :: GetProgramFromChain(get, i).Ok? && j in GetProgramFromChain(get, i).value.imports ==> rank(j) < rank(i)
  }

  /** One more than the highest rank among `ids`, 0 when there are none. */
  ghost function Ceiling(rank: ProgramId -> nat, ids: seq<ProgramId>): (c: nat)
    ensures forall i :: i in ids ==> rank(i) < c
    ensures c == 0 || exists i :: i in ids && c == rank(i) + 1
  {
    if ids == [] then 0
    else
      var rest := Ceiling(rank, ids[1..]);
      if rank(ids[0]) + 1 >= rest then rank(ids[0]) + 1 else rest
  }

  /** The measure of the search below a program. */
  ghost function ProgramRank(rank: ProgramId -> nat, p: Program): nat {
    Ceiling(rank, p.imports)
  }

  /** The search below a program fetched for one of `p`'s imports is shorter. */
  lemma ImportRankBelow(get: string -> Result<Program>, rank: ProgramId -> nat, p: Program, k: nat)
    requires Ranked(get, rank) && k < |p.imports| && GetProgramFromChain(get, p.imports[k]).Ok?
    ensures ProgramRank(rank, GetProgramFromChain(get, p.imports[k]).value) < ProgramRank(rank, p)
  {
    var q := GetProgramFromChain(get, p.imports[k]).value;
    var c := Ceiling(rank, q.imports);
    if c != 0 {
      var j :| j in q.imports && c == rank(j) + 1;
      assert rank(j) < rank(p.imports[k]);
    }
  }

  /** The body of the loop for one import: the imports resolved below it,
      then the import itself, inserted into what was found so far. */
  function AddImport(found: IndexMap<ProgramId, Program>, nested: IndexMap<ProgramId, Program>,
                     id: ProgramId, imported: Program): (r: IndexMap<ProgramId, Program>)
    requires Valid(found) && Valid(nested)
    ensures Valid(r)
  {
    Insert(InsertAll(found, nested), id, imported)
  }

  /** `get_import_programs_from_chain(p)`: for each import in turn, fetch
      it, resolve its own imports, insert those, then the import itself;
      the first failed request ends it. */
  function Resolve(get: string -> Result<Program>, ghost rank: ProgramId -> nat, p: Program)
    : (r: Result<IndexMap<ProgramId, Program>>)
    requires Ranked(get, rank)
    ensures r.Ok? ==> Valid(r.value)
    decreases ProgramRank(rank, p), 1
  {
    ResolveFrom(get, rank, p, 0, Empty())
  }

  /** The search from `p`'s `k`-th import on, `found` holding what the
      earlier ones inserted. */
  function ResolveFrom(get: string -> Result<Program>, ghost rank: ProgramId -> nat, p: Program, k: nat,
                       found: IndexMap<ProgramId, Program>): (r: Result<IndexMap<ProgramId, Program>>)
    requires Ranked(get, rank) && k <= |p.imports| && Valid(found)
    ensures r.Ok? ==> Valid(r.value)
    decreases ProgramRank(rank, p), 0, |p.imports| - k
  {
    if k == |p.imports| then Ok(found)
    else
      var id := p.imports[k];
      match GetProgramFromChain(get, id)
      case Err(e) => Err(e)
      case Ok(imported) =>
        ImportRankBelow(get, rank, p, k);
        match Resolve(get, rank, imported)
        case Err(e) => Err(e)
        case Ok(nested) => ResolveFrom(get, rank, p, k + 1, AddImport(found, nested, id, imported))
  }

  /** The ids `p` imports, directly or through the programs on chain: an
      independent statement of what resolution should find. */
  ghost function Reach(get: string -> Result<Program>, rank: ProgramId -> nat, p: Program): set<ProgramId>
    requires Ranked(get, rank)
    decreases ProgramRank(rank, p), 1
  {
    ReachFrom(get, rank, p, 0)
  }

  ghost function ReachFrom(get: string -> Result<Program>, rank: ProgramId -> nat, p: Program, k: nat): set<ProgramId>
    requires Ranked(get, rank) && k <= |p.imports|
    decreases ProgramRank(rank, p), 0, |p.imports| - k
  {
    if k == |p.imports| then {}
    else
      var id := p.imports[k];
      var below := match GetProgramFromChain(get, id)
                   case Err(_) => {}
                   case Ok(q) => (ImportRankBelow(get, rank, p, k); Reach(get, rank, q));
      {id} + below + ReachFrom(get, rank, p, k + 1)
  }

  lemma {:induction false} ReachFromHasImports(get: string -> Result<Program>, rank: ProgramId -> nat, p: Program, k: nat)
    requires Ranked(get, rank) && k <= |p.imports|
    ensures forall i :: k <= i < |p.imports| ==> p.imports[i] in ReachFrom(get, rank, p, k)
    decreases |p.imports| - k
  {
    if k < |p.imports| {
      ReachFromHasImports(get, rank, p, k + 1);
    }
  }

  /** Every direct import is reached. */
  lemma ReachHasImports(get: string -> Result<Program>, rank: ProgramId -> nat, p: Program)
    requires Ranked(get, rank)
    ensures forall j :: j in p.imports ==> j in Reach(get, rank, p)
  {
    ReachFromHasImports(get, rank, p, 0);
  }

  /** Every key of the map has the program the chain gives for it. */
  ghost predicate FromChain(get: string -> Result<Program>, m: IndexMap<ProgramId, Program>) {
    forall i :: 0 <= i < |m.keys| && i < |m.values| ==> GetProgramFromChain(get, m.keys[i]) == Ok(m.values[i])
  }

  /** Dependencies first: each program's imports are keys inserted before it. */
  ghost predicate DepOrdered(m: IndexMap<ProgramId, Program>) {
    forall i :: 0 <= i < |m.keys| && i < |m.values| ==> ImportsBefore(m, i)
  }

  ghost predicate ImportsBefore(m: IndexMap<ProgramId, Program>, i: nat)
    requires i < |m.values| && i <= |m.keys|
  {
    forall j :: j in m.values[i].imports ==> j in m.keys[..i]
  }

  /** Inserting the chain's program for `k` keeps a map from the chain in
      dependency order when, `k` being new, its imports are all present. */
  lemma InsertOrdered(get: string -> Result<Program>, m: IndexMap<ProgramId, Program>, k: ProgramId, v: Program)
    requires Valid(m) && DepOrdered(m) && FromChain(get, m) && GetProgramFromChain(get, k) == Ok(v)
    requires k !in m.keys ==> forall j :: j in v.imports ==> j in m.keys
    ensures DepOrdered(Insert(m, k, v)) && FromChain(get, Insert(m, k, v))
  {
    var r := Insert(m, k, v);
    if k in m.keys {
      var i := IndexOf(m.keys, k);
      assert m.values[i] == v;
      assert r == m;
    } else {
      forall i | 0 <= i < |r.keys| && i < |r.values|
        ensures ImportsBefore(r, i)
      {
        if i < |m.keys| {
          assert r.keys[..i] == m.keys[..i];
          assert ImportsBefore(m, i);
        } else {
          assert r.keys[..i] == m.keys;
        }
      }
    }
  }

  /** Inserting a dependency-ordered map from the chain into another one,
      from index `t` on, the keys before `t` being present already. */
  lemma {:induction false} InsertFromOrdered(get: string -> Result<Program>, m: IndexMap<ProgramId, Program>,
                                             n: IndexMap<ProgramId, Program>, t: nat)
    requires Valid(m) && Valid(n) && t <= |n.keys|
    requires DepOrdered(m) && DepOrdered(n) && FromChain(get, m) && FromChain(get, n)
    requires forall i :: 0 <= i < t ==> n.keys[i] in m.keys
    ensures DepOrdered(InsertFrom(m, n, t)) && FromChain(get, InsertFrom(m, n, t))
    decreases |n.keys| - t
  {
    if t < |n.keys| {
      var k := n.keys[t];
      var v := n.values[t];
      assert ImportsBefore(n, t);
      InsertOrdered(get, m, k, v);
      InsertKeepsPositions(m, k, v);
      var m' := Insert(m, k, v);
      assert forall i :: 0 <= i < t + 1 ==> n.keys[i] in KeySet(m');
      InsertFromOrdered(get, m', n, t + 1);
      assert InsertFrom(m, n, t) == InsertFrom(m', n, t + 1);
    }
  }

  /** One import resolved: its nested map, then itself, inserted into a
      dependency-ordered map from the chain keep it so. */
  lemma AddImportOrdered(get: string -> Result<Program>, found: IndexMap<ProgramId, Program>,
                         nested: IndexMap<ProgramId, Program>, id: ProgramId, imported: Program)
    requires Valid(found) && DepOrdered(found) && FromChain(get, found)
    requires Valid(nested) && DepOrdered(nested) && FromChain(get, nested)
    requires GetProgramFromChain(get, id) == Ok(imported)
    requires forall j :: j in imported.imports ==> j in KeySet(nested)
    ensures DepOrdered(AddImport(found, nested, id, imported)) && FromChain(get, AddImport(found, nested, id, imported))
  {
    InsertFromOrdered(get, found, nested, 0);
    InsertAllKeys(found, nested);
    InsertOrdered(get, InsertAll(found, nested), id, imported);
  }

  /** One import resolved adds its own key and the nested keys, and keeps
      the earlier keys in front. */
  lemma AddImportKeys(found: IndexMap<ProgramId, Program>, nested: IndexMap<ProgramId, Program>,
                      id: ProgramId, imported: Program)
    requires Valid(found) && Valid(nested)
    ensures var r := AddImport(found, nested, id, imported);
            KeySet(r) == KeySet(found) + KeySet(nested) + {id}
            && |found.keys| <= |r.keys| && r.keys[..|found.keys|] == found.keys
  {
    InsertAllKeys(found, nested);
    var all := InsertAll(found, nested);
    InsertKeepsPositions(all, id, imported);
    var r := Insert(all, id, imported);
    assert r.keys[..|all.keys|] == all.keys;
    assert r.keys[..|found.keys|] == r.keys[..|all.keys|][..|found.keys|];
  }

  /** The keys the search from `p`'s `k`-th import adds are the ids reached
      from there on; the keys found before stay in front. */
  lemma {:induction false} ResolveFromKeys(get: string -> Result<Program>, rank: ProgramId -> nat, p: Program, k: nat,
                                           found: IndexMap<ProgramId, Program>)
    requires Ranked(get, rank) && k <= |p.imports| && Valid(found)
    ensures var r := ResolveFrom(get, rank, p, k, found);
            r.Ok? ==> KeySet(r.value) == KeySet(found) + ReachFrom(get, rank, p, k)
                      && |found.keys| <= |r.value.keys| && r.value.keys[..|found.keys|] == found.keys
    decreases ProgramRank(rank, p), 0, |p.imports| - k
  {
    if k < |p.imports| && ResolveFrom(get, rank, p, k, found).Ok? {
      var id := p.imports[k];
      var imported := GetProgramFromChain(get, id).value;
      ImportRankBelow(get, rank, p, k);
      var nested := Resolve(get, rank, imported).value;
      ResolveKeys(get, rank, imported);
      AddImportKeys(found, nested, id, imported);
      var next := AddImport(found, nested, id, imported);
      ResolveFromKeys(get, rank, p, k + 1, next);
      var r := ResolveFrom(get, rank, p, k + 1, next).value;
      assert r.keys[..|found.keys|] == r.keys[..|next.keys|][..|found.keys|];
    }
  }

  lemma {:induction false} ResolveKeys(get: string -> Result<Program>, rank: ProgramId -> nat, p: Program)
    requires Ranked(get, rank)
    ensures var r := Resolve(get, rank, p);
            r.Ok? ==> KeySet(r.value) == Reach(get, rank, p)
    decreases ProgramRank(rank, p), 1
  {
    ResolveFromKeys(get, rank, p, 0, Empty());
  }

  /** The search from `p`'s `k`-th import keeps a map from the chain in dependency order. */
  lemma {:induction false} ResolveFromOrdered(get: string -> Result<Program>, rank: ProgramId -> nat, p: Program, k: nat,
                                              found: IndexMap<ProgramId, Program>)
    requires Ranked(get, rank) && k <= |p.imports| && Valid(found) && DepOrdered(found) && FromChain(get, found)
    ensures var r := ResolveFrom(get, rank, p, k, found);
            r.Ok? ==> DepOrdered(r.value) && FromChain(get, r.value)
    decreases ProgramRank(rank, p), 0, |p.imports| - k
  {
    if k < |p.imports| && ResolveFrom(get, rank, p, k, found).Ok? {
      var id := p.imports[k];
      var imported := GetProgramFromChain(get, id).value;
      ImportRankBelow(get, rank, p, k);
      var nested := Resolve(get, rank, imported).value;
      ResolveKeys(get, rank, imported);
      ResolveOrdered(get, rank, imported);
      ReachHasImports(get, rank, imported);
      AddImportOrdered(get, found, nested, id, imported);
      ResolveFromOrdered(get, rank, p, k + 1, AddImport(found, nested, id, imported));
    }
  }

  lemma {:induction false} ResolveOrdered(get: string -> Result<Program>, rank: ProgramId -> nat, p: Program)
    requires Ranked(get, rank)
    ensures var r := Resolve(get, rank, p);
            r.Ok? ==> DepOrdered(r.value) && FromChain(get, r.value)
    decreases ProgramRank(rank, p), 1
  {
    ResolveFromOrdered(get, rank, p, 0, Empty());
  }

  /** The search from `p`'s `k`-th import on fails exactly when the chain
      has no program for some id it reaches. */
  lemma {:induction false} ResolveFromFails(get: string -> Result<Program>, rank: ProgramId -> nat, p: Program, k: nat,
                                            found: IndexMap<ProgramId, Program>)
    requires Ranked(get, rank) && k <= |p.imports| && Valid(found)
    ensures ResolveFrom(get, rank, p, k, found).Err? <==>
            exists id :: id in ReachFrom(get, rank, p, k) && GetProgramFromChain(get, id).Err?
    decreases ProgramRank(rank, p), 0, |p.imports| - k
  {
    if k < |p.imports| {
      var id := p.imports[k];
      if GetProgramFromChain(get, id).Ok? {
        var imported := GetProgramFromChain(get, id).value;
        ImportRankBelow(get, rank, p, k);
        ResolveFails(get, rank, imported);
        if Resolve(get, rank, imported).Ok? {
          var nested := Resolve(get, rank, imported).value;
          ResolveFromFails(get, rank, p, k + 1, AddImport(found, nested, id, imported));
        }
      }
    }
  }

  lemma {:induction false} ResolveFails(get: string -> Result<Program>, rank: ProgramId -> nat, p: Program)
    requires Ranked(get, rank)
    ensures Resolve(get, rank, p).Err? <==> exists id :: id in Reach(get, rank, p) && GetProgramFromChain(get, id).Err?
    decreases ProgramRank(rank, p), 1
  {
    ResolveFromFails(get, rank, p, 0, Empty());
  }

  /** The map `get_import_programs_from_chain` returns holds exactly the
      programs `p` imports, directly or not, each as the chain gives it,
      each after its own imports; it fails exactly when the chain has no
      program for one of them. */
  lemma ResolveSound(get: string -> Result<Program>, rank: ProgramId -> nat, p: Program)
    requires Ranked(get, rank)
    ensures var r := Resolve(get, rank, p);
            (r.Ok? ==> DepOrdered(r.value) && FromChain(get, r.value) && KeySet(r.value) == Reach(get, rank, p))
            && (r.Err? <==> exists id :: id in Reach(get, rank, p) && GetProgramFromChain(get, id).Err?)
  {
    ResolveKeys(get, rank, p);
    ResolveOrdered(get, rank, p);
    ResolveFails(get, rank, p);
  }

  /** `get_import_programs_from_chain` as the source runs it: a loop over the
      imports, and for each a loop inserting the nested imports.  Its
      `contains_key` checks build an error that is dropped, so they are
      not modelled. */
  method GetImportProgramsFromChain(get: string -> Result<Program>, ghost rank: ProgramId -> nat, p: Program)
    returns (r: Result<IndexMap<ProgramId, Program>>)
    requires Ranked(get, rank)
    ensures r == Resolve(get, rank, p)
    decreases ProgramRank(rank, p), 1
  {
    var found := Empty();
    var k := 0;
    while k < |p.imports|
      invariant k <= |p.imports| && Valid(found)
      invariant Resolve(get, rank, p) == ResolveFrom(get, rank, p, k, found)
      decreases |p.imports| - k
    {
      var id := p.imports[k];
      var fetched := GetProgramFromChain(get, id);
      if fetched.Err? {
        return Err(fetched.msg);
      }
      var imported := fetched.value;
      ImportRankBelow(get, rank, p, k);
      var resolved := GetImportProgramsFromChain(get, rank, imported);
      if resolved.Err? {
        return Err(resolved.msg);
      }
      var nested := resolved.value;
      ghost var before := found;
      var t := 0;
      while t < |nested.keys|
        invariant t <= |nested.keys| && Valid(found)
        invariant InsertFrom(found, nested, t) == InsertAll(before, nested)
        decreases |nested.keys| - t
      {
        found := Insert(found, nested.keys[t], nested.values[t]);
        t := t + 1;
      }
      found := Insert(found, id, imported);
      k := k + 1;
    }
    return Ok(found);
  }

  /* ---------- a diamond of imports ---------- */

  const DiamondTop: Program := Program("top.aleo", ["left.aleo", "right.aleo"])
  const DiamondLeft: Program := Program("left.aleo", ["base.aleo"])
  const DiamondRight: Program := Program("right.aleo", ["base.aleo"])
  const DiamondBase: Program := Program("base.aleo", [])

  /** A chain holding the three imported programs of the diamond. */
  function DiamondChain(url: string): Result<Program> {
    if url == ProgramUrl("left.aleo") then Ok(DiamondLeft)
    else if url == ProgramUrl("right.aleo") then Ok(DiamondRight)
    else if url == ProgramUrl("base.aleo") then Ok(DiamondBase)
    else Err("not found")
  }

  function DiamondRank(id: ProgramId): nat {
    if id == "base.aleo" then 0 else 1
  }

  lemma DiamondRanked()
    ensures Ranked(DiamondChain, DiamondRank)
  {
    forall i, j | GetProgramFromChain(DiamondChain, i).Ok? && j in GetProgramFromChain(DiamondChain, i).value.imports
      ensures DiamondRank(j) < DiamondRank(i)
    {
      if ProgramUrl(i) == ProgramUrl("left.aleo") {
        ProgramUrlInjective(i, "left.aleo");
      } else if ProgramUrl(i) == ProgramUrl("right.aleo") {
        ProgramUrlInjective(i, "right.aleo");
      } else {
        ProgramUrlInjective(i, "base.aleo");
      }
    }
  }

  /** The chain serves each of the three imported programs. */
  lemma DiamondFetches()
    ensures GetProgramFromChain(DiamondChain, "left.aleo") == Ok(DiamondLeft)
    ensures GetProgramFromChain(DiamondChain, "right.aleo") == Ok(DiamondRight)
    ensures GetProgramFromChain(DiamondChain, "base.aleo") == Ok(DiamondBase)
  {
    if ProgramUrl("right.aleo") == ProgramUrl("left.aleo") {
      ProgramUrlInjective("right.aleo", "left.aleo");
    }
    if ProgramUrl("base.aleo") == ProgramUrl("left.aleo") {
      ProgramUrlInjective("base.aleo", "left.aleo");
    }
    if ProgramUrl("base.aleo") == ProgramUrl("right.aleo") {
      ProgramUrlInjective("base.aleo", "right.aleo");
    }
  }

  const DiamondOne: IndexMap<ProgramId, Program> := IndexMap(["base.aleo"], [DiamondBase])
  const DiamondTwo: IndexMap<ProgramId, Program> := IndexMap(["base.aleo", "left.aleo"], [DiamondBase, DiamondLeft])
  const DiamondThree: IndexMap<ProgramId, Program> :=
    IndexMap(["base.aleo", "left.aleo", "right.aleo"], [DiamondBase, DiamondLeft, DiamondRight])

  lemma DiamondValid()
    ensures Valid(DiamondOne) && Valid(DiamondTwo)
  {
    assert "base.aleo" != "left.aleo" by {
      assert "base.aleo"[0] != "left.aleo"[0];
    }
  }

  /** The base inserted into an empty map. */
  lemma DiamondFirstStep()
    ensures AddImport(Empty(), Empty(), "base.aleo", DiamondBase) == DiamondOne
  {
    var none: IndexMap<ProgramId, Program> := Empty();
    assert InsertAll(none, none) == none;
  }

  /** Left's own import, then left. */
  lemma DiamondSecondStep()
    ensures Valid(DiamondOne)
    ensures AddImport(Empty(), DiamondOne, "left.aleo", DiamondLeft) == DiamondTwo
  {
    DiamondValid();
    var none: IndexMap<ProgramId, Program> := Empty();
    assert InsertFrom(DiamondOne, DiamondOne, 1) == DiamondOne;
    assert InsertFrom(none, DiamondOne, 0) == InsertFrom(DiamondOne, DiamondOne, 1);
  }

  /** Right's own import, already present, keeps its place; then right. */
  lemma DiamondThirdStep()
    ensures Valid(DiamondOne) && Valid(DiamondTwo)
    ensures AddImport(DiamondTwo, DiamondOne, "right.aleo", DiamondRight) == DiamondThree
  {
    DiamondValid();
    assert IndexOf(DiamondTwo.keys, "base.aleo") == 0;
    assert InsertFrom(DiamondTwo, DiamondOne, 1) == DiamondTwo;
    assert InsertFrom(DiamondTwo, DiamondOne, 0) == InsertFrom(DiamondTwo, DiamondOne, 1);
  }

  /** The two middle programs each resolve to the base alone. */
  lemma DiamondSides()
    requires Ranked(DiamondChain, DiamondRank)
    ensures Resolve(DiamondChain, DiamondRank, DiamondLeft) == Ok(DiamondOne)
    ensures Resolve(DiamondChain, DiamondRank, DiamondRight) == Ok(DiamondOne)
  {
    DiamondFetches();
    DiamondFirstStep();
    var get, rank := DiamondChain, DiamondRank;
    var none: IndexMap<ProgramId, Program> := Empty();
    assert Resolve(get, rank, DiamondBase) == ResolveFrom(get, rank, DiamondBase, 0, none) == Ok(none);
    assert ResolveFrom(get, rank, DiamondLeft, 1, DiamondOne) == Ok(DiamondOne);
    assert Resolve(get, rank, DiamondLeft) == ResolveFrom(get, rank, DiamondLeft, 0, none);
    assert ResolveFrom(get, rank, DiamondRight, 1, DiamondOne) == Ok(DiamondOne);
    assert Resolve(get, rank, DiamondRight) == ResolveFrom(get, rank, DiamondRight, 0, none);
  }

  /** A program imported twice keeps the place of its first insertion, the
      dependency found first: base, then left, then right. */
  lemma DiamondExample()
    ensures Ranked(DiamondChain, DiamondRank)
    ensures Resolve(DiamondChain, DiamondRank, DiamondTop) == Ok(DiamondThree)
  {
    DiamondRanked();
    DiamondFetches();
    DiamondSecondStep();
    DiamondThirdStep();
    DiamondSides();
    var get, rank := DiamondChain, DiamondRank;
    assert ResolveFrom(get, rank, DiamondTop, 2, DiamondThree) == Ok(DiamondThree);
    assert ResolveFrom(get, rank, DiamondTop, 1, DiamondTwo) == ResolveFrom(get, rank, DiamondTop, 2, DiamondThree);
    assert ResolveFrom(get, rank, DiamondTop, 0, Empty()) == ResolveFrom(get, rank, DiamondTop, 1, DiamondTwo);
  }

  /* ---------- initialize_vm ---------- */

  /** The VM's programs, in the order they were added.  `add(vm, q)` is
      `add_program(q)` on a VM holding `vm`: whether the VM accepts it. */
  type AddProgram = (seq<Program>, Program) -> Result<()>

  /** What the loop over the resolved imports adds: every program but
      credits.aleo, which the VM already holds. */
  function WithoutCredits(qs: seq<Program>): (r: seq<Program>)
    ensures |r| <= |qs|
  {
    if qs == [] then []
    else if qs[0].id == CREDITS_PROGRAM then WithoutCredits(qs[1..])
    else [qs[0]] + WithoutCredits(qs[1..])
  }

  /** The filter keeps exactly the programs that are not credits.aleo. */
  lemma {:induction false} WithoutCreditsMembers(qs: seq<Program>)
    ensures forall q :: q in WithoutCredits(qs) <==> q in qs && q.id != CREDITS_PROGRAM
  {
    if qs != [] {
      WithoutCreditsMembers(qs[1..]);
      assert qs == [qs[0]] + qs[1..];
    }
  }

  /** The `try_for_each` of `initialize_vm` over the programs `qs`, the VM
      holding `vm`: skip credits.aleo, add the others in order, stop at
      the first one refused. */
  function AddImports(add: AddProgram, vm: seq<Program>, qs: seq<Program>): (r: Result<seq<Program>>)
    ensures r.Ok? ==> |vm| <= |r.value| <= |vm| + |qs| && r.value[..|vm|] == vm
    decreases |qs|
  {
    if qs == [] then Ok(vm)
    else if qs[0].id == CREDITS_PROGRAM then AddImports(add, vm, qs[1..])
    else
      match add(vm, qs[0])
      case Err(e) => Err(e)
      case Ok(_) => AddImports(add, vm + [qs[0]], qs[1..])
  }

  /** Filtering a sequence with a first element filters that element, then the rest. */
  lemma WithoutCreditsCons(x: Program, s: seq<Program>)
    ensures WithoutCredits([x] + s) == WithoutCredits([x]) + WithoutCredits(s)
  {
    assert ([x] + s)[1..] == s;
    assert [x][1..] == [];
  }

  /** The VM refuses `qs[i]` once the programs before it are added. */
  ghost predicate RefusedAt(add: AddProgram, vm: seq<Program>, qs: seq<Program>, i: nat)
    requires i < |qs|
  {
    qs[i].id != CREDITS_PROGRAM && add(vm + WithoutCredits(qs[..i]), qs[i]).Err?
  }

  /** The loop adds the programs but credits.aleo, in order, after those
      already held. */
  lemma {:induction false} AddImportsOk(add: AddProgram, vm: seq<Program>, qs: seq<Program>)
    ensures var r := AddImports(add, vm, qs);
            r.Ok? ==> r.value == vm + WithoutCredits(qs)
    decreases |qs|
  {
    if qs != [] {
      WithoutCreditsCons(qs[0], qs[1..]);
      assert [qs[0]] + qs[1..] == qs;
      if qs[0].id == CREDITS_PROGRAM {
        AddImportsOk(add, vm, qs[1..]);
      } else {
        AddImportsOk(add, vm + [qs[0]], qs[1..]);
      }
    }
  }

  /** Refusing `qs[i + 1]` is refusing the `i`-th of the rest, once the
      first is handled. */
  lemma RefusedAtShift(add: AddProgram, vm: seq<Program>, qs: seq<Program>, i: nat)
    requires i + 1 < |qs|
    ensures RefusedAt(add, vm, qs, i + 1) == RefusedAt(add, vm + WithoutCredits([qs[0]]), qs[1..], i)
  {
    assert qs[..i + 1] == [qs[0]] + qs[1..][..i];
    assert qs[i + 1] == qs[1..][i];
    WithoutCreditsCons(qs[0], qs[1..][..i]);
    assert vm + (WithoutCredits([qs[0]]) + WithoutCredits(qs[1..][..i]))
           == vm + WithoutCredits([qs[0]]) + WithoutCredits(qs[1..][..i]);
  }

  /** One turn of the loop: it fails at the first program or later. */
  lemma AddImportsStep(add: AddProgram, vm: seq<Program>, qs: seq<Program>)
    requires qs != []
    ensures AddImports(add, vm, qs).Err? <==>
            RefusedAt(add, vm, qs, 0) || AddImports(add, vm + WithoutCredits([qs[0]]), qs[1..]).Err?
  {
    assert qs[..0] == [];
    assert WithoutCredits(qs[..0]) == [];
    assert vm + WithoutCredits(qs[..0]) == vm;
    assert [qs[0]][1..] == [];
    if qs[0].id == CREDITS_PROGRAM {
      assert WithoutCredits([qs[0]]) == [];
      assert vm + WithoutCredits([qs[0]]) == vm;
    } else {
      assert WithoutCredits([qs[0]]) == [qs[0]];
    }
  }

  /** The loop fails exactly when the VM refuses one of the programs, the
      ones before it added. */
  lemma {:induction false} AddImportsFails(add: AddProgram, vm: seq<Program>, qs: seq<Program>)
    ensures AddImports(add, vm, qs).Err? <==> exists i :: 0 <= i < |qs| && RefusedAt(add, vm, qs, i)
    decreases |qs|
  {
    if qs != [] {
      var vm' := vm + WithoutCredits([qs[0]]);
      var rest := qs[1..];
      AddImportsStep(add, vm, qs);
      AddImportsFails(add, vm', rest);
      if AddImports(add, vm, qs).Err? {
        if !RefusedAt(add, vm, qs, 0) {
          var i :| 0 <= i < |rest| && RefusedAt(add, vm', rest, i);
          RefusedAtShift(add, vm, qs, i);
        }
      } else {
        forall i | 0 <= i < |qs|
          ensures !RefusedAt(add, vm, qs, i)
        {
          if i > 0 {
            RefusedAtShift(add, vm, qs, i - 1);
          }
        }
      }
    }
  }

  /** `initialize_vm(p)`: open an ephemeral store and a VM over it (the
      outcome `open`), resolve `p`'s imports from the chain, add them but
      credits.aleo, then add `p` itself. */
  function InitializedVm(open: Result<()>, get: string -> Result<Program>, ghost rank: ProgramId -> nat,
                         add: AddProgram, p: Program): (r: Result<seq<Program>>)
    requires Ranked(get, rank)
    ensures r.Ok? ==> open.Ok? && Resolve(get, rank, p).Ok? && |r.value| >= 1 && r.value[|r.value| - 1] == p
  {
    match open
    case Err(e) => Err(e)
    case Ok(_) =>
      match Resolve(get, rank, p)
      case Err(e) => Err(e)
      case Ok(imports) =>
        match AddImports(add, [], imports.values)
        case Err(e) => Err(e)
        case Ok(vm) =>
          match add(vm, p)
          case Err(e) => Err(e)
          case Ok(_) => Ok(vm + [p])
  }

  /** The VM `initialize_vm` returns holds the resolved imports but
      credits.aleo, in resolution order, then `p`: each import as the chain
      gives it, for an id `p` reaches, and every such program but
      credits.aleo.  With a VM that accepts every program it fails exactly
      when the store cannot be opened or resolution fails. */
  lemma InitializedVmContents(open: Result<()>, get: string -> Result<Program>, rank: ProgramId -> nat,
                              add: AddProgram, p: Program)
    requires Ranked(get, rank)
    ensures var r := InitializedVm(open, get, rank, add, p);
            (r.Ok? ==> Resolve(get, rank, p).Ok?
                       && r.value == WithoutCredits(Resolve(get, rank, p).value.values) + [p]
                       && (forall q :: q in r.value[..|r.value| - 1] <==>
                             q.id != CREDITS_PROGRAM
                             && exists id :: id in Reach(get, rank, p) && GetProgramFromChain(get, id) == Ok(q)))
            && ((forall vm, q :: add(vm, q).Ok?) ==> (r.Ok? <==> open.Ok? && Resolve(get, rank, p).Ok?))
  {
    var r := InitializedVm(open, get, rank, add, p);
    if open.Ok? && Resolve(get, rank, p).Ok? {
      var m := Resolve(get, rank, p).value;
      AddImportsOk(add, [], m.values);
      WithoutCreditsMembers(m.values);
      AddImportsFails(add, [], m.values);
      ResolveSound(get, rank, p);
      if r.Ok? {
        var vm := WithoutCredits(m.values);
        assert r.value[..|r.value| - 1] == vm;
        forall q
          ensures q in vm <==> q.id != CREDITS_PROGRAM
                               && exists id :: id in Reach(get, rank, p) && GetProgramFromChain(get, id) == Ok(q)
        {
          if q in m.values && q.id != CREDITS_PROGRAM {
            var i :| 0 <= i < |m.values| && m.values[i] == q;
            assert m.keys[i] in KeySet(m);
          }
          if q.id != CREDITS_PROGRAM
             && exists id :: id in Reach(get, rank, p) && GetProgramFromChain(get, id) == Ok(q) {
            var id :| id in Reach(get, rank, p) && GetProgramFromChain(get, id) == Ok(q);
            var i :| 0 <= i < |m.keys| && m.keys[i] == id;
            assert m.values[i] == q;
          }
        }
      }
    }
  }

  /** `initialize_vm` as the source runs it: a loop over the resolved map. */
  method InitializeVm(open: Result<()>, get: string -> Result<Program>, ghost rank: ProgramId -> nat,
                      add: AddProgram, p: Program) returns (r: Result<seq<Program>>)
    requires Ranked(get, rank)
    ensures r == InitializedVm(open, get, rank, add, p)
  {
    if open.Err? {
      return Err(open.msg);
    }
    var resolved := GetImportProgramsFromChain(get, rank, p);
    if resolved.Err? {
      return Err(resolved.msg);
    }
    var imports := resolved.value.values;
    var vm := [];
    var t := 0;
    while t < |imports|
      invariant t <= |imports|
      invariant AddImports(add, [], imports) == AddImports(add, vm, imports[t..])
      decreases |imports| - t
    {
      assert imports[t..][1..] == imports[t + 1..];
      if imports[t].id != CREDITS_PROGRAM {
        var added := add(vm, imports[t]);
        if added.Err? {
          return Err(added.msg);
        }
        vm := vm + [imports[t]];
      }
      t := t + 1;
    }
    var added := add(vm, p);
    if added.Err? {
      return Err(added.msg);
    }
    return Ok(vm + [p]);
  }
}
