/** The agent (agent.rs): its endpoint and account, which the setters update
    in place; the two record scanners; and the local part of `transfer`, the
    balance checks and the shaping of the inputs of the credits program.

    Each scanner is a method whose loops mirror the source's; its result and
    the windows it requested equal a specification function over the window
    sequence of the Windows module, and the lemmas state what that function
    returns. */
module Agents {
  import opened Wrappers
  import opened Lib
  import opened Snarkvm
  import opened Format
  import opened Chain
  import opened Windows
  import opened Scans
  import opened Accounts

  /* ---------- Credits::microcredits ---------- */

  const NO_MICROCREDITS: string := "The record provided does not contain a microcredits field"

  predicate IsPrivateU64(e: Entry) {
    e.Private? && e.plaintext.LiteralValue? && e.plaintext.literal.U64Literal?
  }

  /** `microcredits`: the private `u64` entry called `microcredits`. */
  function Microcredits(r: PlaintextRecord): (m: Result<u64>)
    ensures m.Ok? <==> FindEntry(r, "microcredits").Ok? && IsPrivateU64(FindEntry(r, "microcredits").value)
    ensures m.Ok? ==> exists i :: 0 <= i < |r.data|
                        && r.data[i] == RecordEntry("microcredits", Entry.Private(LiteralValue(U64Literal(m.value))))
    ensures FindEntry(r, "microcredits").Err? ==> m == Err(FindEntry(r, "microcredits").msg)
    ensures FindEntry(r, "microcredits").Ok? && !IsPrivateU64(FindEntry(r, "microcredits").value)
            ==> m == Err(NO_MICROCREDITS)
  {
    var entry :- FindEntry(r, "microcredits");
    match entry
    case Private(LiteralValue(U64Literal(amount))) => Ok(amount)
    case _ => Err(NO_MICROCREDITS)
  }

  /* ---------- what a scan reads ---------- */

  /** The agent's endpoint and account, the record operations and the node. */
  datatype Env = Env(baseUrl: string, network: string, account: Account, rops: RecordOps, node: Node)

  /** One `get_blocks_in_range` request, flattened to (commitment, record) pairs. */
  function FetchRecords(env: Env, w: Window): Result<seq<(Field, CiphertextRecord)>> {
    var blocks :- GetBlocksInRange(env.baseUrl, env.network, env.node, w.lo, w.hi);
    Ok(BlocksRecords(blocks))
  }

  /** The cheap ownership test against the account's address. */
  predicate Owned(env: Env, c: CiphertextRecord) {
    env.rops.isOwner(c, env.account.viewKey, env.rops.xCoordinate(env.account.address))
  }

  /** The node knows a transition that consumed this serial number.  Any
      error of the lookup, not only "not found", counts as unspent. */
  predicate SpentOnChain(env: Env, sn: Field) {
    FindTransitionId(env.baseUrl, env.network, env.node, env.rops.fieldDisplay(sn)).Ok?
  }

  /* ---------- get_unspent_records ---------- */

  const START_NOT_BELOW_END_HEIGHT: string := "The start block height must be less than the end block height"

  /** When `get_unspent_records` keeps `rec` for the pair `(cm, c)`: owned,
      serial number derived, not spent, decrypted to `rec`. */
  predicate Unspent(env: Env, cm: Field, c: CiphertextRecord, rec: PlaintextRecord) {
    var sn := env.rops.serialNumber(env.account.privateKey, cm);
    Owned(env, c) && sn.Ok? && !SpentOnChain(env, sn.value) && env.rops.decrypt(c, env.account.viewKey) == Ok(rec)
  }

  /** The `filter_map` closure of `get_unspent_records`. */
  function UnspentRecord(env: Env, p: (Field, CiphertextRecord)): (r: Option<PlaintextRecord>)
    ensures r.Some? ==> Unspent(env, p.0, p.1, r.value)
    ensures forall rec :: Unspent(env, p.0, p.1, rec) ==> r == Some(rec)
  {
    var (cm, c) := p;
    if !Owned(env, c) then None
    else
      match env.rops.serialNumber(env.account.privateKey, cm)
      case Err(_) => None
      case Ok(sn) =>
        if SpentOnChain(env, sn) then None
        else
          match env.rops.decrypt(c, env.account.viewKey)
          case Ok(rec) => Some(rec)
          case Err(_) => None
  }

  /** An owned record whose serial number derives and which decrypts is kept
      exactly when the node's transition lookup fails, whatever its error. */
  lemma LookupErrorCountsUnspent(env: Env, cm: Field, c: CiphertextRecord, rec: PlaintextRecord)
    requires Owned(env, c) && env.rops.serialNumber(env.account.privateKey, cm).Ok?
    requires env.rops.decrypt(c, env.account.viewKey) == Ok(rec)
    ensures var sn := env.rops.serialNumber(env.account.privateKey, cm).value;
            var url := FindTransitionUrl(env.baseUrl, env.network, env.rops.fieldDisplay(sn));
            UnspentRecord(env, (cm, c)) == if env.node.transitionId(url).Err? then Some(rec) else None
  {
  }

  /** The records one window contributes, in order. */
  function UnspentIn(env: Env, ps: seq<(Field, CiphertextRecord)>): seq<(Field, PlaintextRecord)>
    decreases |ps|, 1
  {
    if ps == [] then [] else UnspentInLast(env, ps)
  }

  /** The records of all pairs but the last, then the last one's if it is kept. */
  function UnspentInLast(env: Env, ps: seq<(Field, CiphertextRecord)>): seq<(Field, PlaintextRecord)>
    requires ps != []
    decreases |ps|, 0
  {
    var last := ps[|ps| - 1];
    UnspentIn(env, ps[..|ps| - 1])
      + match UnspentRecord(env, last) case Some(rec) => [(last.0, rec)] case None => []
  }

  /** A window's records are exactly the pairs that pass all four checks;
      failing any check skips the pair without an error. */
  lemma {:induction false} UnspentInMembers(env: Env, ps: seq<(Field, CiphertextRecord)>, x: (Field, PlaintextRecord))
    ensures x in UnspentIn(env, ps) <==> exists i :: 0 <= i < |ps| && ps[i].0 == x.0 && Unspent(env, x.0, ps[i].1, x.1)
    decreases |ps|
  {
    if ps != [] {
      var n := |ps|;
      var init := ps[..n - 1];
      var last := ps[n - 1];
      UnspentInMembers(env, init, x);
      var tail := match UnspentRecord(env, last) case Some(rec) => [(last.0, rec)] case None => [];
      assert UnspentIn(env, ps) == UnspentIn(env, init) + tail;
      if x in UnspentIn(env, ps) {
        if x in UnspentIn(env, init) {
          var i :| 0 <= i < |init| && init[i].0 == x.0 && Unspent(env, x.0, init[i].1, x.1);
          assert ps[i] == init[i];
        } else {
          assert x in tail;
          assert ps[n - 1].0 == x.0 && Unspent(env, x.0, ps[n - 1].1, x.1);
        }
      }
      if exists i :: 0 <= i < |ps| && ps[i].0 == x.0 && Unspent(env, x.0, ps[i].1, x.1) {
        var i :| 0 <= i < |ps| && ps[i].0 == x.0 && Unspent(env, x.0, ps[i].1, x.1);
        if i < n - 1 {
          assert init[i] == ps[i];
        } else {
          assert UnspentRecord(env, last) == Some(x.1);
          assert tail == [x];
        }
      }
    }
  }

  /** The microcredits a kept record counts: none when it has no microcredits entry. */
  function RecordGates(x: (Field, PlaintextRecord)): nat {
    Microcredits(x.1).UnwrapOr(0)
  }

  /** The running total: the microcredits of the records. */
  function Gates(rs: seq<(Field, PlaintextRecord)>): nat {
    Sum(RecordGates, rs)
  }

  /** One more pair of a window: its record is appended when it passes the checks. */
  lemma UnspentInSnoc(env: Env, ps: seq<(Field, CiphertextRecord)>, j: nat)
    requires j < |ps|
    ensures UnspentIn(env, ps[..j + 1]) ==
            UnspentIn(env, ps[..j]) + match UnspentRecord(env, ps[j]) case Some(rec) => [(ps[j].0, rec)] case None => []
  {
    assert ps[..j + 1][..j] == ps[..j];
  }

  /** What one descending window contributes, or the error of its request. */
  function WindowUnspent(env: Env, w: Window): Result<seq<(Field, PlaintextRecord)>> {
    var ps :- FetchRecords(env, w);
    Ok(UnspentIn(env, ps))
  }

  /** The request of one window, as the generic scan takes it. */
  function UnspentFetch(env: Env): Window -> Result<seq<(Field, PlaintextRecord)>> {
    w => WindowUnspent(env, w)
  }

  /** The microcredits of a concatenation are the sum of the parts'. */
  lemma GatesAdditive()
    ensures Additive(Gates)
  {
    forall a: seq<(Field, PlaintextRecord)>, b: seq<(Field, PlaintextRecord)>
      ensures Gates(a + b) == Gates(a) + Gates(b)
    {
      SumAppend(RecordGates, a, b);
    }
  }

  /** `get_unspent_records(start..end, max_gates)` and the windows it
      requests: the scan over the descending windows, weighed in
      microcredits and stopped at `maxGates`. */
  function UnspentRecords(env: Env, start: u32, end: u32, maxGates: Option<u64>): Scan<Result<seq<(Field, PlaintextRecord)>>> {
    if start >= end then Scan(Err(START_NOT_BELOW_END_HEIGHT), [])
    else WeightScan(UnspentFetch(env), Gates, DescendingWindows(start, end), 0, maxGates)
  }

  /** `get_unspent_records` fails without a request when the range is empty;
      otherwise it requests a non-empty prefix of the descending windows, each
      of which passes the range guard, and returns their records in window
      order, or the error of the first request that fails. */
  lemma UnspentRecordsWindows(env: Env, start: u32, end: u32, maxGates: Option<u64>)
    ensures var sc := UnspentRecords(env, start, end, maxGates);
            (start >= end ==> sc == Scan(Err(START_NOT_BELOW_END_HEIGHT), []))
            && (start < end ==>
                  1 <= |sc.fetched| <= |DescendingWindows(start, end)|
                  && sc.fetched == DescendingWindows(start, end)[..|sc.fetched|]
                  && (forall w :: w in sc.fetched ==> CheckBlockRange(w.lo, w.hi).Ok?)
                  && sc.result == AllFound(UnspentFetch(env), sc.fetched))
  {
    if start < end {
      var ws := DescendingWindows(start, end);
      DescendingWindowsShape(start, end);
      DescendingWindowsPassGuard(start, end);
      WeightScanPrefix(UnspentFetch(env), Gates, ws, 0, maxGates);
      WeightScanReturnsFound(UnspentFetch(env), Gates, ws, 0, maxGates);
      var sc := UnspentRecords(env, start, end, maxGates);
      forall w | w in sc.fetched
        ensures CheckBlockRange(w.lo, w.hi).Ok?
      {
        var i :| 0 <= i < |sc.fetched| && sc.fetched[i] == w;
        assert ws[i] == w;
      }
    }
  }

  /** The stop rule of `get_unspent_records`: it stops before the last
      window only when a limit is given and the microcredits found reached
      it, after a whole window, so the total may overshoot the limit; at no
      earlier window had they reached it; with no limit a scan that succeeds
      requests every window. */
  lemma UnspentRecordsStopRule(env: Env, start: u32, end: u32, maxGates: Option<u64>)
    requires start < end
    ensures var sc := UnspentRecords(env, start, end, maxGates);
            var ws := DescendingWindows(start, end);
            (sc.result.Ok? && |sc.fetched| < |ws| ==> maxGates.Some? && Gates(sc.result.value) >= maxGates.value)
            && (maxGates.None? && sc.result.Ok? ==> sc.fetched == ws)
            && (forall k :: 0 < k < |sc.fetched| ==>
                  AllFound(UnspentFetch(env), sc.fetched[..k]).Ok?
                  && !Reached(Gates(AllFound(UnspentFetch(env), sc.fetched[..k]).value), maxGates))
  {
    var ws := DescendingWindows(start, end);
    GatesAdditive();
    WeightScanStopRule(UnspentFetch(env), Gates, ws, 0, maxGates);
    WeightScanKeptGoing(UnspentFetch(env), Gates, ws, 0, maxGates);
    if maxGates.None? {
      WeightScanNoLimit(UnspentFetch(env), Gates, ws, 0);
    }
  }

  /** A failing `get_unspent_records` failed at the block request of the
      last window it requested, every earlier request having succeeded. */
  lemma UnspentRecordsFailure(env: Env, start: u32, end: u32, maxGates: Option<u64>)
    requires start < end
    ensures var sc := UnspentRecords(env, start, end, maxGates);
            sc.result.Err? ==>
              |sc.fetched| >= 1 && FetchRecords(env, sc.fetched[|sc.fetched| - 1]).Err?
              && sc.result.msg == FetchRecords(env, sc.fetched[|sc.fetched| - 1]).msg
              && forall j :: 0 <= j < |sc.fetched| - 1 ==> FetchRecords(env, sc.fetched[j]).Ok?
  {
    var sc := UnspentRecords(env, start, end, maxGates);
    var ws := DescendingWindows(start, end);
    WeightScanFailsLast(UnspentFetch(env), Gates, ws, 0, maxGates);
    if sc.result.Err? {
      var n := |sc.fetched|;
      var init := sc.fetched[..n - 1];
      AllFoundRequests(UnspentFetch(env), init);
      forall j | 0 <= j < n - 1
        ensures FetchRecords(env, sc.fetched[j]).Ok?
      {
        assert init[j] == sc.fetched[j];
      }
    }
  }

  /** A successful `get_unspent_records` returns exactly the records that
      pass the four checks in the windows it requested. */
  lemma UnspentRecordsMembers(env: Env, start: u32, end: u32, maxGates: Option<u64>, x: (Field, PlaintextRecord))
    requires UnspentRecords(env, start, end, maxGates).result.Ok?
    ensures var sc := UnspentRecords(env, start, end, maxGates);
            x in sc.result.value <==>
            exists j :: 0 <= j < |sc.fetched| && FetchRecords(env, sc.fetched[j]).Ok?
                        && x in UnspentIn(env, FetchRecords(env, sc.fetched[j]).value)
  {
    var sc := UnspentRecords(env, start, end, maxGates);
    UnspentRecordsWindows(env, start, end, maxGates);
    AllFoundMembers(UnspentFetch(env), sc.fetched, x);
  }

  /* ---------- scan_records ---------- */

  const DECRYPT_PANIC: string := "Failed to decrypt records"

  /** What one window contributes to `scan_records`: every owned record,
      decrypted; `None` when decrypting an owned record fails (the source panics). */
  function OwnedIn(env: Env, ps: seq<(Field, CiphertextRecord)>): Option<seq<(Field, PlaintextRecord)>> {
    if ps == [] then Some([])
    else
      var last := ps[|ps| - 1];
      match OwnedIn(env, ps[..|ps| - 1])
      case None => None
      case Some(xs) =>
        if !Owned(env, last.1) then Some(xs)
        else
          match env.rops.decrypt(last.1, env.account.viewKey)
          case Ok(rec) => Some(xs + [(last.0, rec)])
          case Err(_) => None
  }

  /** A window panics exactly when one of its owned records fails to decrypt. */
  lemma {:induction false} OwnedInPanics(env: Env, ps: seq<(Field, CiphertextRecord)>)
    ensures OwnedIn(env, ps).None? <==>
            exists i :: 0 <= i < |ps| && Owned(env, ps[i].1) && env.rops.decrypt(ps[i].1, env.account.viewKey).Err?
    decreases |ps|
  {
    if ps != [] {
      var n := |ps|;
      var init := ps[..n - 1];
      OwnedInPanics(env, init);
      if exists i :: 0 <= i < |init| && Owned(env, init[i].1) && env.rops.decrypt(init[i].1, env.account.viewKey).Err? {
        var i :| 0 <= i < |init| && Owned(env, init[i].1) && env.rops.decrypt(init[i].1, env.account.viewKey).Err?;
        assert ps[i] == init[i];
      }
      if exists i :: 0 <= i < |ps| && Owned(env, ps[i].1) && env.rops.decrypt(ps[i].1, env.account.viewKey).Err? {
        var i :| 0 <= i < |ps| && Owned(env, ps[i].1) && env.rops.decrypt(ps[i].1, env.account.viewKey).Err?;
        if i < n - 1 {
          assert init[i] == ps[i];
        }
      }
    }
  }

  /** Otherwise its records are exactly the owned ones, decrypted; no spend check is made. */
  lemma {:induction false} OwnedInMembers(env: Env, ps: seq<(Field, CiphertextRecord)>, x: (Field, PlaintextRecord))
    requires OwnedIn(env, ps).Some?
    ensures x in OwnedIn(env, ps).value <==>
            exists i :: 0 <= i < |ps| && ps[i].0 == x.0 && Owned(env, ps[i].1)
                        && env.rops.decrypt(ps[i].1, env.account.viewKey) == Ok(x.1)
    decreases |ps|
  {
    if ps != [] {
      var n := |ps|;
      var init := ps[..n - 1];
      OwnedInMembers(env, init, x);
      if exists i :: 0 <= i < |init| && init[i].0 == x.0 && Owned(env, init[i].1)
                     && env.rops.decrypt(init[i].1, env.account.viewKey) == Ok(x.1) {
        var i :| 0 <= i < |init| && init[i].0 == x.0 && Owned(env, init[i].1)
                 && env.rops.decrypt(init[i].1, env.account.viewKey) == Ok(x.1);
        assert ps[i] == init[i];
      }
      if exists i :: 0 <= i < |ps| && ps[i].0 == x.0 && Owned(env, ps[i].1)
                     && env.rops.decrypt(ps[i].1, env.account.viewKey) == Ok(x.1) {
        var i :| 0 <= i < |ps| && ps[i].0 == x.0 && Owned(env, ps[i].1)
                 && env.rops.decrypt(ps[i].1, env.account.viewKey) == Ok(x.1);
        if i < n - 1 {
          assert init[i] == ps[i];
        }
      }
    }
  }

  lemma {:induction false} OwnedInPanicPersists(env: Env, ps: seq<(Field, CiphertextRecord)>, k: nat)
    requires k <= |ps| && OwnedIn(env, ps[..k]).None?
    ensures OwnedIn(env, ps).None?
    decreases |ps| - k
  {
    if k < |ps| {
      assert ps[..k + 1][..k] == ps[..k];
      OwnedInPanicPersists(env, ps, k + 1);
    } else {
      assert ps[..k] == ps;
    }
  }

  /** What one aligned window contributes, its request error, or the panic. */
  function WindowOwned(env: Env, w: Window): Outcome<seq<(Field, PlaintextRecord)>> {
    match FetchRecords(env, w)
    case Err(e) => Returned(Err(e))
    case Ok(ps) => (match OwnedIn(env, ps) case None => Panicked(DECRYPT_PANIC) case Some(found) => Returned(Ok(found)))
  }

  /** The request of one window, as the generic scan takes it. */
  function OwnedFetch(env: Env): Window -> Outcome<seq<(Field, PlaintextRecord)>> {
    w => WindowOwned(env, w)
  }

  /** `scan_records(start..end, max_records)` and the windows it requests:
      the scan over the aligned windows, stopped at `maxRecords` records;
      no limit is `usize::MAX`. */
  function ScannedRecords(env: Env, start: u32, end: u32, maxRecords: Option<u64>): Scan<Outcome<seq<(Field, PlaintextRecord)>>> {
    CountScan(OwnedFetch(env), AlignedWindows(start, end), 0, maxRecords.UnwrapOr(USIZE_MAX))
  }

  /** `scan_records` over its aligned windows: it requests a prefix of them,
      each passing the range guard, and returns their records in window
      order; it stops before the last window only having found the limit,
      and no earlier window had reached it; with no limit it reads every
      window unless it found `usize::MAX` records. */
  lemma ScannedRecordsWindows(env: Env, start: u32, end: u32, maxRecords: Option<u64>)
    ensures var sc := ScannedRecords(env, start, end, maxRecords);
            var ws := AlignedWindows(start, end);
            var limit := maxRecords.UnwrapOr(USIZE_MAX);
            |sc.fetched| <= |ws| && sc.fetched == ws[..|sc.fetched|]
            && (ws != [] ==> |sc.fetched| >= 1)
            && (forall w :: w in sc.fetched ==> CheckBlockRange(w.lo, w.hi).Ok?)
            && sc.result == AllOutcome(OwnedFetch(env), sc.fetched)
            && (sc.result.Returned? && sc.result.result.Ok? && |sc.fetched| < |ws| ==>
                  |sc.result.result.value| >= limit)
            && (forall k :: 0 < k < |sc.fetched| ==>
                  AllOutcome(OwnedFetch(env), sc.fetched[..k]).Returned?
                  && AllOutcome(OwnedFetch(env), sc.fetched[..k]).result.Ok?
                  && |AllOutcome(OwnedFetch(env), sc.fetched[..k]).result.value| < limit)
            && ((maxRecords.None? && sc.result.Returned? && sc.result.result.Ok?
                 && |sc.result.result.value| < USIZE_MAX) ==> sc.fetched == ws)
  {
    var ws := AlignedWindows(start, end);
    var sc := ScannedRecords(env, start, end, maxRecords);
    AlignedWindowsPassGuard(start, end);
    CountScanPrefix(OwnedFetch(env), ws, 0, maxRecords.UnwrapOr(USIZE_MAX));
    CountScanReturnsFound(OwnedFetch(env), ws, 0, maxRecords.UnwrapOr(USIZE_MAX));
    CountScanStopRule(OwnedFetch(env), ws, 0, maxRecords.UnwrapOr(USIZE_MAX));
    forall w | w in sc.fetched
      ensures CheckBlockRange(w.lo, w.hi).Ok?
    {
      var i :| 0 <= i < |sc.fetched| && sc.fetched[i] == w;
      assert ws[i] == w;
    }
  }

  /** A `scan_records` that fails or panics does so at the last window it
      requested: its block request failed, or one of its owned records
      failed to decrypt. */
  lemma ScannedRecordsFailure(env: Env, start: u32, end: u32, maxRecords: Option<u64>)
    ensures var sc := ScannedRecords(env, start, end, maxRecords);
            !(sc.result.Returned? && sc.result.result.Ok?) ==>
              |sc.fetched| >= 1
              && var last := sc.fetched[|sc.fetched| - 1];
                 (sc.result.Returned? ==> FetchRecords(env, last).Err? && sc.result.result.msg == FetchRecords(env, last).msg)
                 && (sc.result.Panicked? ==>
                       sc.result == Panicked(DECRYPT_PANIC) && FetchRecords(env, last).Ok?
                       && OwnedIn(env, FetchRecords(env, last).value).None?)
  {
    CountScanFailsLast(OwnedFetch(env), AlignedWindows(start, end), 0, maxRecords.UnwrapOr(USIZE_MAX));
  }

  /** A `scan_records` that returns holds exactly the owned records, decrypted,
      of the windows it requested, spent or not. */
  lemma ScannedRecordsMembers(env: Env, start: u32, end: u32, maxRecords: Option<u64>, x: (Field, PlaintextRecord))
    requires ScannedRecords(env, start, end, maxRecords).result.Returned?
    requires ScannedRecords(env, start, end, maxRecords).result.result.Ok?
    ensures var sc := ScannedRecords(env, start, end, maxRecords);
            x in sc.result.result.value <==>
            exists j :: 0 <= j < |sc.fetched| && FetchRecords(env, sc.fetched[j]).Ok?
                        && OwnedIn(env, FetchRecords(env, sc.fetched[j]).value).Some?
                        && x in OwnedIn(env, FetchRecords(env, sc.fetched[j]).value).value
  {
    var sc := ScannedRecords(env, start, end, maxRecords);
    ScannedRecordsWindows(env, start, end, maxRecords);
    AllOutcomeMembers(OwnedFetch(env), sc.fetched, x);
  }

  /** What the walk over a window's pairs keeps: the records of the first
      `j` pairs and the microcredits they hold. */
  ghost predicate KeptUpTo(env: Env, ps: seq<(Field, CiphertextRecord)>, j: nat, kept: seq<(Field, PlaintextRecord)>,
                           gates: nat)
  {
    j <= |ps| && kept == UnspentIn(env, ps[..j]) && gates == Gates(kept)
  }

  /** One more pair: its record and microcredits are added when it passes the checks. */
  lemma KeptStep(env: Env, ps: seq<(Field, CiphertextRecord)>, j: nat, kept: seq<(Field, PlaintextRecord)>, gates: nat)
    requires KeptUpTo(env, ps, j, kept, gates) && j < |ps|
    ensures match UnspentRecord(env, ps[j])
            case Some(rec) => KeptUpTo(env, ps, j + 1, kept + [(ps[j].0, rec)], gates + Microcredits(rec).UnwrapOr(0))
            case None => KeptUpTo(env, ps, j + 1, kept, gates)
  {
    UnspentInSnoc(env, ps, j);
    match UnspentRecord(env, ps[j]) {
      case Some(rec) =>
        SumSnoc(RecordGates, kept, (ps[j].0, rec));
      case None =>
        assert kept + [] == kept;
    }
  }

  /** One window of `get_unspent_records`: the request, then the records
      it keeps, in order, and the microcredits they hold. */
  method FetchUnspent(env: Env, w: Window) returns (r: Result<seq<(Field, PlaintextRecord)>>, gates: nat)
    ensures r == WindowUnspent(env, w) && (r.Ok? ==> gates == Gates(r.value))
  {
    var blocks := GetBlocksInRange(env.baseUrl, env.network, env.node, w.lo, w.hi);
    if blocks.Err? {
      return Err(blocks.msg), 0;
    }
    var pairs := BlocksRecords(blocks.value);
    var kept: seq<(Field, PlaintextRecord)> := [];
    gates := 0;
    var j := 0;
    while j < |pairs|
      invariant 0 <= j <= |pairs|
      invariant KeptUpTo(env, pairs, j, kept, gates)
    {
      KeptStep(env, pairs, j, kept, gates);
      match UnspentRecord(env, pairs[j]) {
        case Some(rec) =>
          gates := gates + Microcredits(rec).UnwrapOr(0);
          kept := kept + [(pairs[j].0, rec)];
        case None =>
      }
      j := j + 1;
    }
    assert pairs[..|pairs|] == pairs;
    r := Ok(kept);
  }

  /** One window of `scan_records`: the request, then its owned records,
      decrypted, in order, or the panic when one fails to decrypt. */
  method FetchOwned(env: Env, w: Window) returns (r: Outcome<seq<(Field, PlaintextRecord)>>)
    ensures r == WindowOwned(env, w)
  {
    var blocks := GetBlocksInRange(env.baseUrl, env.network, env.node, w.lo, w.hi);
    if blocks.Err? {
      return Returned(Err(blocks.msg));
    }
    var pairs := BlocksRecords(blocks.value);
    var found: seq<(Field, PlaintextRecord)> := [];
    var j := 0;
    while j < |pairs|
      invariant 0 <= j <= |pairs|
      invariant OwnedIn(env, pairs[..j]) == Some(found)
    {
      var (commitment, record) := pairs[j];
      assert pairs[..j + 1][..j] == pairs[..j];
      if Owned(env, record) {
        var plain := env.rops.decrypt(record, env.account.viewKey);
        if plain.Err? {
          OwnedInPanicPersists(env, pairs, j + 1);
          return Panicked(DECRYPT_PANIC);
        }
        found := found + [(commitment, plain.value)];
      }
      j := j + 1;
    }
    assert pairs[..|pairs|] == pairs;
    r := Returned(Ok(found));
  }

  /* ---------- the agent ---------- */

  class Agent {
    var baseUrl: string
    var network: string
    var account: Account

    /** `Agent::new`. */
    constructor (baseUrl: string, network: string, account: Account)
      ensures this.baseUrl == baseUrl && this.network == network && this.account == account
    {
      this.baseUrl := baseUrl;
      this.network := network;
      this.account := account;
    }

    /** `Agent::default`: the public explorer, the default network, the default account. */
    constructor Default(k: KeyOps)
      requires FromSeed(k, 0).Ok?
      ensures baseUrl == DEFAULT_BASE_URL && network == DEFAULT_TESTNET && account == Accounts.Default(k)
      ensures Derived(k, account)
    {
      baseUrl := DEFAULT_BASE_URL;
      network := DEFAULT_TESTNET;
      account := Accounts.Default(k);
    }

    /** What the scanners read of the agent. */
    function EnvWith(rops: RecordOps, node: Node): Env
      reads this
    {
      Env(baseUrl, network, account, rops, node)
    }

    method SetUrl(url: string)
      modifies this
      ensures baseUrl == url && network == old(network) && account == old(account)
    {
      baseUrl := url;
    }

    method SetNetwork(network: string)
      modifies this
      ensures this.network == network && baseUrl == old(baseUrl) && account == old(account)
    {
      this.network := network;
    }

    method SetAccount(account: Account)
      modifies this
      ensures this.account == account && baseUrl == old(baseUrl) && network == old(network)
    {
      this.account := account;
    }

    /** Point the agent at a node on this machine, on the default network. */
    method LocalTestnet(port: string)
      modifies this
      ensures network == DEFAULT_TESTNET && baseUrl == "http://0.0.0.0:" + port && account == old(account)
    {
      network := DEFAULT_TESTNET;
      baseUrl := "http://0.0.0.0:" + port;
    }

    /** `get_unspent_records`: walk down from `end` in 49-block windows,
        keeping the owned, unspent records that decrypt, until the windows
        run out or the microcredits found reach `maxGates`. */
    method GetUnspentRecords(rops: RecordOps, node: Node, start: u32, end: u32, maxGates: Option<u64>)
      returns (r: Result<seq<(Field, PlaintextRecord)>>, fetched: seq<Window>)
      ensures Scan(r, fetched) == UnspentRecords(EnvWith(rops, node), start, end, maxGates)
    {
      var env := EnvWith(rops, node);
      if start >= end {
        return Err(START_NOT_BELOW_END_HEIGHT), [];
      }
      var records: seq<(Field, PlaintextRecord)> := [];
      var totalGates: nat := 0;
      var endHeight: u32 := end;
      var startHeight: u32 := SaturatingSub(end, DESCENDING_STEP);
      var h: nat := start;
      fetched := [];
      ghost var spec := UnspentRecords(env, start, end, maxGates);
      ghost var ahead := DescendingWindows(start, end);
      WeightScanBegins(UnspentFetch(env), Gates, ahead, maxGates);
      while h < end
        invariant DescendingAhead(ahead, start, end, h, Window(startHeight, endHeight))
        invariant WeightScanLeft(UnspentFetch(env), Gates, spec, records, fetched, ahead, totalGates, maxGates)
        decreases end - h
      {
        var w := Window(startHeight, endHeight);
        ghost var down := SaturatingSub(startHeight, DESCENDING_STEP);
        ghost var next := Window(if down < start then start else down, startHeight);
        assert next == NextDescending(start, w);
        DescendingStep(ahead, start, end, h, w);
        ghost var tail := ahead[1..];
        var found, gates := FetchUnspent(env, w);
        if found.Err? {
          WeightScanFails(UnspentFetch(env), Gates, spec, records, fetched, w, tail, totalGates, maxGates);
          return Err(found.msg), fetched + [w];
        }
        if maxGates.Some? && totalGates + gates >= maxGates.value {
          WeightScanStops(UnspentFetch(env), Gates, spec, records, fetched, w, tail, totalGates, found.value, maxGates);
          return Ok(records + found.value), fetched + [w];
        }
        WeightScanAdvances(UnspentFetch(env), Gates, spec, records, fetched, w, tail, totalGates, found.value,
                           totalGates + gates, maxGates);
        records, fetched, totalGates := records + found.value, fetched + [w], totalGates + gates;
        endHeight := startHeight;
        startHeight := SaturatingSub(startHeight, DESCENDING_STEP);
        if startHeight < start {
          startHeight := start;
        }
        assert Window(startHeight, endHeight) == next;
        h := h + DESCENDING_STEP;
        ahead := tail;
      }
      DescendingDone(ahead, start, end, h, Window(startHeight, endHeight));
      WeightScanEnds(UnspentFetch(env), Gates, spec, records, fetched, totalGates, maxGates);
      r := Ok(records);
    }

    /** `scan_records`: walk up from `start` rounded down to a multiple of 50
        in 50-block windows, decrypting every owned record (a failure
        panics), until `end` or until `maxRecords` records were found.  The
        loop's upper limit `end + (50 - end % 50)` must fit in a `u32`. */
    method ScanRecords(rops: RecordOps, node: Node, start: u32, end: u32, maxRecords: Option<u64>)
      returns (r: Outcome<seq<(Field, PlaintextRecord)>>, fetched: seq<Window>)
      requires AlignedLimitFits(end)
      ensures Scan(r, fetched) == ScannedRecords(EnvWith(rops, node), start, end, maxRecords)
    {
      var env := EnvWith(rops, node);
      var limit := maxRecords.UnwrapOr(USIZE_MAX);
      var startBlockHeight: u32 := start - start % ALIGNED_STEP;
      var endBlockHeight: u32 := end + (ALIGNED_STEP - end % ALIGNED_STEP);
      var records: seq<(Field, PlaintextRecord)> := [];
      fetched := [];
      var s: nat := startBlockHeight;
      ghost var spec := ScannedRecords(env, start, end, maxRecords);
      ghost var ahead := AscendingFrom(s, end);
      CountScanBegins(OwnedFetch(env), ahead, limit);
      while s < endBlockHeight
        invariant ahead == AscendingFrom(s, end)
        invariant CountScanLeft(OwnedFetch(env), spec, records, fetched, ahead, limit)
        decreases endBlockHeight - s
      {
        if s >= end {
          break;
        }
        var endHeight: u32 := if s + ALIGNED_STEP > end then end else s + ALIGNED_STEP;
        var w := Window(s, endHeight);
        ghost var tail := AscendingFrom(s + ALIGNED_STEP, end);
        assert ahead == [w] + tail;
        var found := FetchOwned(env, w);
        if !(found.Returned? && found.result.Ok?) {
          CountScanStops(OwnedFetch(env), spec, records, fetched, w, tail, limit);
          return found, fetched + [w];
        }
        if |records| + |found.result.value| >= limit {
          CountScanStops(OwnedFetch(env), spec, records, fetched, w, tail, limit);
          return Returned(Ok(records + found.result.value)), fetched + [w];
        }
        CountScanAdvances(OwnedFetch(env), spec, records, fetched, w, tail, found.result.value, limit);
        records, fetched := records + found.result.value, fetched + [w];
        s := s + ALIGNED_STEP;
        ahead := tail;
      }
      assert ahead == [];
      CountScanEnds(OwnedFetch(env), spec, records, fetched, limit);
      r := Returned(Ok(records));
    }
  }

  /* ---------- transfer ---------- */

  /** How the credits move, and the record spent when they move from a private balance. */
  datatype TransferType =
    | Private(record: PlaintextRecord)
    | PrivateToPublic(record: PlaintextRecord)
    | Public
    | PublicToPrivate

  /** The `Display` of a transfer type: the credits program function it calls. */
  function FunctionName(t: TransferType): string {
    match t
    case Private(_) => "transfer_private"
    case PrivateToPublic(_) => "transfer_private_to_public"
    case Public => "transfer_public"
    case PublicToPrivate => "transfer_public_to_private"
  }

  predicate SameKind(t1: TransferType, t2: TransferType) {
    t1.Private? == t2.Private? && t1.PrivateToPublic? == t2.PrivateToPublic? && t1.Public? == t2.Public?
  }

  /** Different kinds of transfer call different functions. */
  lemma FunctionNameDeterminesKind(t1: TransferType, t2: TransferType)
    ensures FunctionName(t1) == FunctionName(t2) <==> SameKind(t1, t2)
  {
    var n1, n2 := FunctionName(t1), FunctionName(t2);
    if !SameKind(t1, t2) {
      if |n1| == |n2| {
        assert n1[10] != n2[10];
      }
    }
  }

  /** The record a transfer spends, if any. */
  function SpentRecord(t: TransferType): Option<PlaintextRecord> {
    if t.Private? || t.PrivateToPublic? then Some(t.record) else None
  }

  datatype TransferArgs = TransferArgs(
    amount: u64,
    priorityFee: u64,
    recipient: Address,
    transferType: TransferType,
    feeRecord: Option<PlaintextRecord>)

  /** `TransferArgs::from`, whose parameters come in another order than the fields. */
  function TransferArgsFrom(amount: u64, recipient: Address, priorityFee: u64, feeRecord: Option<PlaintextRecord>,
                            transferType: TransferType): (a: TransferArgs)
    ensures a.amount == amount && a.priorityFee == priorityFee && a.recipient == recipient
    ensures a.transferType == transferType && a.feeRecord == feeRecord
  {
    TransferArgs(amount, priorityFee, recipient, transferType, feeRecord)
  }

  /** The amount input: `format!("{}u64", amount)` parsed as a value, which always succeeds. */
  function AmountInput(amount: u64): (v: Value)
    ensures v == PlaintextValue(LiteralValue(U64Literal(amount)))
  {
    U64LiteralRoundTrip(amount);
    match ParseU64Literal(Decimal(amount) + "u64")
    case Some(n) => PlaintextValue(LiteralValue(U64Literal(n)))
    case None => assert false; PlaintextValue(LiteralValue(OtherLiteral("")))
  }

  /** The recipient input: `Value::from_str(&recipient.to_string())`, whose
      `unwrap` panics when the text does not parse back. */
  function RecipientInput(t: TextOps, a: Address): (r: Outcome<Value>)
    ensures r.Panicked? <==> t.parseValue(t.addressText(a)).Err?
    ensures AddressTextRoundTrip(t) ==> r == Returned(Ok(PlaintextValue(LiteralValue(AddressLiteral(a)))))
  {
    match t.parseValue(t.addressText(a))
    case Ok(v) => Returned(Ok(v))
    case Err(e) => Panicked(e)
  }

  /** `to_inputs`: the spent record first when there is one, then the
      recipient, then the amount; it panics only at the recipient. */
  function ToInputs(t: TextOps, args: TransferArgs): (r: Outcome<seq<Value>>)
    ensures r.Panicked? <==> RecipientInput(t, args.recipient).Panicked?
    ensures r.Returned? ==> r.result.Ok?
    ensures r.Returned? && SpentRecord(args.transferType).Some? ==>
              r.result.value == [RecordValue(args.transferType.record), RecipientInput(t, args.recipient).result.value,
                                 AmountInput(args.amount)]
    ensures r.Returned? && SpentRecord(args.transferType).None? ==>
              r.result.value == [RecipientInput(t, args.recipient).result.value, AmountInput(args.amount)]
  {
    match RecipientInput(t, args.recipient)
    case Panicked(m) => Panicked(m)
    case Returned(recipient) =>
      match args.transferType
      case Private(r) => Returned(Ok([RecordValue(r), recipient.value, AmountInput(args.amount)]))
      case PrivateToPublic(r) => Returned(Ok([RecordValue(r), recipient.value, AmountInput(args.amount)]))
      case _ => Returned(Ok([recipient.value, AmountInput(args.amount)]))
  }

  /** Reads a transfer's inputs back: the spent record if any, the recipient, the amount. */
  function ReadTransferInputs(inputs: seq<Value>): Option<(Option<PlaintextRecord>, Address, u64)> {
    if |inputs| == 3 && inputs[0].RecordValue? then
      match (inputs[1], inputs[2])
      case (PlaintextValue(LiteralValue(AddressLiteral(a))), PlaintextValue(LiteralValue(U64Literal(n)))) =>
        Some((Some(inputs[0].record), a, n))
      case _ => None
    else if |inputs| == 2 then
      match (inputs[0], inputs[1])
      case (PlaintextValue(LiteralValue(AddressLiteral(a))), PlaintextValue(LiteralValue(U64Literal(n)))) =>
        Some((None, a, n))
      case _ => None
    else None
  }

  /** When an address's text parses back to it, the inputs are built without
      a panic and carry exactly the spent record, the recipient and the amount. */
  lemma TransferInputsRoundTrip(t: TextOps, args: TransferArgs)
    requires AddressTextRoundTrip(t)
    ensures ToInputs(t, args).Returned?
    ensures ReadTransferInputs(ToInputs(t, args).result.value)
            == Some((SpentRecord(args.transferType), args.recipient, args.amount))
  {
  }

  const AMOUNT_NOT_COVERED: string := "Credits in amount record must greater than transfer amount specified"
  const FEE_NOT_COVERED: string := "Credits in fee record must greater than fee specified"

  /** The execution `transfer` asks the VM for once its checks pass. */
  datatype ExecuteRequest = ExecuteRequest(
    programId: ProgramId,
    functionName: string,
    inputs: seq<Value>,
    feeRecord: Option<PlaintextRecord>,
    priorityFee: u64)

  /** The record holds at least `amount` microcredits. */
  predicate Covers(r: PlaintextRecord, amount: u64) {
    Microcredits(r).Ok? && Microcredits(r).value >= amount
  }

  /** The first check: the spent record must hold the amount. */
  function CheckAmount(args: TransferArgs): (r: Result<()>)
    ensures r.Ok? <==> (SpentRecord(args.transferType).Some? ==> Covers(SpentRecord(args.transferType).value, args.amount))
  {
    match SpentRecord(args.transferType)
    case None => Ok(())
    case Some(r) =>
      var m :- Microcredits(r);
      if m >= args.amount then Ok(()) else Err(AMOUNT_NOT_COVERED)
  }

  /** The second check: a fee record must hold the priority fee. */
  function CheckFee(args: TransferArgs): (r: Result<()>)
    ensures r.Ok? <==> (args.feeRecord.Some? ==> Covers(args.feeRecord.value, args.priorityFee))
  {
    match args.feeRecord
    case None => Ok(())
    case Some(r) =>
      var m :- Microcredits(r);
      if m >= args.priorityFee then Ok(()) else Err(FEE_NOT_COVERED)
  }

  /** `transfer` up to the VM: both checks, before anything else, then the
      inputs, then the execution of the credits program function named by
      the transfer type. */
  function Transfer(t: TextOps, args: TransferArgs): (r: Outcome<ExecuteRequest>)
    ensures r.Returned? && r.result.Ok? ==>
              ToInputs(t, args).Returned?
              && r.result.value == ExecuteRequest(CREDITS_PROGRAM, FunctionName(args.transferType),
                                                  ToInputs(t, args).result.value, args.feeRecord, args.priorityFee)
  {
    match CheckAmount(args)
    case Err(e) => Returned(Err(e))
    case Ok(_) =>
      match CheckFee(args)
      case Err(e) => Returned(Err(e))
      case Ok(_) =>
        match ToInputs(t, args)
        case Panicked(m) => Panicked(m)
        case Returned(inputs) =>
          Returned(Ok(ExecuteRequest(CREDITS_PROGRAM, FunctionName(args.transferType), inputs.value,
                                     args.feeRecord, args.priorityFee)))
  }

  /** When an address's text parses back to it, a transfer goes ahead exactly
      when the spent record covers the amount and the fee record covers the
      priority fee. */
  lemma TransferAccepted(t: TextOps, args: TransferArgs)
    requires AddressTextRoundTrip(t)
    ensures Transfer(t, args).Returned?
    ensures Transfer(t, args).result.Ok? <==>
            (SpentRecord(args.transferType).Some? ==> Covers(SpentRecord(args.transferType).value, args.amount))
            && (args.feeRecord.Some? ==> Covers(args.feeRecord.value, args.priorityFee))
  {
  }

  /** A transfer panics only after both checks pass, and exactly when the
      recipient's text does not parse back. */
  lemma TransferPanics(t: TextOps, args: TransferArgs)
    ensures Transfer(t, args).Panicked? <==>
            CheckAmount(args).Ok? && CheckFee(args).Ok? && t.parseValue(t.addressText(args.recipient)).Err?
  {
  }

  /** Which rejection a failing transfer gives: the amount check comes
      first, and a record without microcredits fails with that error. */
  lemma TransferRejections(t: TextOps, args: TransferArgs)
    ensures var spent := SpentRecord(args.transferType);
            (spent.Some? && Microcredits(spent.value).Err? ==> Transfer(t, args) == Returned(Err(Microcredits(spent.value).msg)))
            && (spent.Some? && Microcredits(spent.value).Ok? && Microcredits(spent.value).value < args.amount
                ==> Transfer(t, args) == Returned(Err(AMOUNT_NOT_COVERED)))
            && ((spent.None? || Covers(spent.value, args.amount)) && args.feeRecord.Some?
                && Microcredits(args.feeRecord.value).Ok? && Microcredits(args.feeRecord.value).value < args.priorityFee
                ==> Transfer(t, args) == Returned(Err(FEE_NOT_COVERED)))
  {
  }

  /** The documented example of `transfer`: 100 microcredits from the public
      balance with priority fee 0 and no fee record. */
  lemma PublicTransferExample(t: TextOps, recipient: Address)
    requires AddressTextRoundTrip(t)
    ensures Transfer(t, TransferArgsFrom(100, recipient, 0, None, TransferType.Public))
         == Returned(Ok(ExecuteRequest("credits.aleo", "transfer_public",
                                       [PlaintextValue(LiteralValue(AddressLiteral(recipient))),
                                        PlaintextValue(LiteralValue(U64Literal(100)))],
                                       None, 0)))
  {
  }

  /** The crate's example: one credit from the public balance, fee 1, no fee record. */
  lemma CreditTransferExample(t: TextOps, recipient: Address)
    requires AddressTextRoundTrip(t)
    ensures Transfer(t, TransferArgsFrom(MICROCREDITS, recipient, 1, None, TransferType.Public))
         == Returned(Ok(ExecuteRequest("credits.aleo", "transfer_public",
                                       [PlaintextValue(LiteralValue(AddressLiteral(recipient))),
                                        PlaintextValue(LiteralValue(U64Literal(1_000_000)))],
                                       None, 1)))
  {
  }
}
