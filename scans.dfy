/** The record scanners' shared shape: request one window after another and
    concatenate what each gives, stopping at the first request error (or
    panic), or early once a limit is reached after a whole window.  The scans
    are generic in `fetch`, what one window's request gives, so that their
    properties are proved once; `Scan` pairs what a scan returns with the
    windows it requested. */
module Scans {
  import opened Wrappers
  import opened Lib
  import opened Windows

  datatype Scan<+R> = Scan(result: R, fetched: seq<Window>)

  /** `found` was appended and the windows in `log` requested before the rest `s` of a scan. */
  function ThenOk<T>(found: seq<T>, log: seq<Window>, s: Scan<Result<seq<T>>>): (r: Scan<Result<seq<T>>>)
    ensures r.fetched == log + s.fetched
    ensures s.result.Ok? <==> r.result.Ok?
    ensures s.result.Ok? ==> r.result.value == found + s.result.value
  {
    Scan(match s.result case Ok(more) => Ok(found + more) case Err(e) => Err(e), log + s.fetched)
  }

  lemma ThenOkThenOk<T>(a: seq<T>, la: seq<Window>, b: seq<T>, lb: seq<Window>, s: Scan<Result<seq<T>>>)
    ensures ThenOk(a, la, ThenOk(b, lb, s)) == ThenOk(a + b, la + lb, s)
  {
    assert la + (lb + s.fetched) == la + lb + s.fetched;
    if s.result.Ok? {
      assert a + (b + s.result.value) == a + b + s.result.value;
    }
  }

  /** Nothing found and nothing requested before leaves a scan as it is. */
  lemma ThenOkNothing<T>(s: Scan<Result<seq<T>>>)
    ensures ThenOk([], [], s) == s
  {
    assert [] + s.fetched == s.fetched;
    if s.result.Ok? {
      assert [] + s.result.value == s.result.value;
    }
  }

  /** The same, for a scan that may also panic. */
  function ThenOutcome<T>(found: seq<T>, log: seq<Window>, s: Scan<Outcome<seq<T>>>): (r: Scan<Outcome<seq<T>>>)
    ensures r.fetched == log + s.fetched
    ensures s.result.Panicked? ==> r.result == s.result
    ensures s.result.Returned? && s.result.result.Err? ==> r.result == s.result
    ensures s.result.Returned? && s.result.result.Ok? ==> r.result == Returned(Ok(found + s.result.result.value))
  {
    Scan(match s.result
         case Returned(Ok(more)) => Returned(Ok(found + more))
         case other => other,
         log + s.fetched)
  }

  lemma ThenOutcomeThenOutcome<T>(a: seq<T>, la: seq<Window>, b: seq<T>, lb: seq<Window>, s: Scan<Outcome<seq<T>>>)
    ensures ThenOutcome(a, la, ThenOutcome(b, lb, s)) == ThenOutcome(a + b, la + lb, s)
  {
    assert la + (lb + s.fetched) == la + lb + s.fetched;
    if s.result.Returned? && s.result.result.Ok? {
      assert a + (b + s.result.result.value) == a + b + s.result.result.value;
    }
  }

  lemma ThenOutcomeNothing<T>(s: Scan<Outcome<seq<T>>>)
    ensures ThenOutcome([], [], s) == s
  {
    assert [] + s.fetched == s.fetched;
    if s.result.Returned? && s.result.result.Ok? {
      assert [] + s.result.result.value == s.result.result.value;
    }
  }

  /* ---------- a scan stopped by a total weight ---------- */

  /** The total has reached the limit, when there is one. */
  predicate Reached(total: nat, limit: Option<u64>) {
    limit.Some? && total >= limit.value
  }

  /** The total of `amount` over a sequence. */
  function Sum<T>(amount: T -> nat, s: seq<T>): nat {
    if s == [] then 0 else Sum(amount, s[..|s| - 1]) + amount(s[|s| - 1])
  }

  lemma SumSnoc<T>(amount: T -> nat, s: seq<T>, x: T)
    ensures Sum(amount, s + [x]) == Sum(amount, s) + amount(x)
  {
    assert (s + [x])[..|s|] == s;
  }

  lemma {:induction false} SumAppend<T>(amount: T -> nat, a: seq<T>, b: seq<T>)
    ensures Sum(amount, a + b) == Sum(amount, a) + Sum(amount, b)
    decreases |b|
  {
    if b == [] {
      assert a + b == a;
    } else {
      var init := b[..|b| - 1];
      var last := b[|b| - 1];
      assert a + b == (a + init) + [last];
      SumSnoc(amount, a + init, last);
      SumAppend(amount, a, init);
      assert b == init + [last];
      SumSnoc(amount, init, last);
    }
  }

  /** The weight of a scan that counts nothing: with no limit it stops only at a request error. */
  function NoWeight<T>(s: seq<T>): nat {
    0
  }

  /** A weight that adds up over concatenation. */
  ghost predicate Additive<T(!new)>(weigh: seq<T> -> nat) {
    forall a: seq<T>, b: seq<T> :: weigh(a + b) == weigh(a) + weigh(b)
  }

  lemma NoWeightAdditive<T(!new)>()
    ensures Additive<T>(NoWeight)
  {
  }

  /** The scan over the windows `ws`, `total` having been weighed before:
      nothing to do without windows, otherwise a step over the first. */
  function WeightScan<T>(fetch: Window -> Result<seq<T>>, weigh: seq<T> -> nat, ws: seq<Window>, total: nat,
                         limit: Option<u64>): Scan<Result<seq<T>>>
    decreases |ws|, 1
  {
    if ws == [] then Scan(Ok([]), []) else WeightStep(fetch, weigh, ws[0], ws[1..], total, limit)
  }

  /** One window `w`, `ws` coming after it: a request error ends the scan
      with that error; after the window the scan stops when the total has
      reached the limit, and goes on with `ws` otherwise. */
  function WeightStep<T>(fetch: Window -> Result<seq<T>>, weigh: seq<T> -> nat, w: Window, ws: seq<Window>,
                         total: nat, limit: Option<u64>): Scan<Result<seq<T>>>
    decreases |ws| + 1, 0
  {
    match fetch(w)
    case Err(e) => Scan(Err(e), [w])
    case Ok(found) =>
      if Reached(total + weigh(found), limit) then Scan(Ok(found), [w])
      else ThenOk(found, [w], WeightScan(fetch, weigh, ws, total + weigh(found), limit))
  }

  /** The scan over a window and the ones after it is the step over that window. */
  lemma WeightScanCons<T>(fetch: Window -> Result<seq<T>>, weigh: seq<T> -> nat, w: Window, ws: seq<Window>,
                          total: nat, limit: Option<u64>)
    ensures WeightScan(fetch, weigh, [w] + ws, total, limit) == WeightStep(fetch, weigh, w, ws, total, limit)
  {
    assert ([w] + ws)[0] == w && ([w] + ws)[1..] == ws;
  }

  /** What a loop running the scan keeps: the whole scan `sc` is the
      `records` already found and the windows `fetched` already requested,
      followed by the scan over the windows `ahead`. */
  ghost predicate WeightScanLeft<T>(fetch: Window -> Result<seq<T>>, weigh: seq<T> -> nat, sc: Scan<Result<seq<T>>>,
                                    records: seq<T>, fetched: seq<Window>, ahead: seq<Window>, total: nat,
                                    limit: Option<u64>)
  {
    sc == ThenOk(records, fetched, WeightScan(fetch, weigh, ahead, total, limit))
  }

  /** Before the first window: nothing found, nothing requested. */
  lemma WeightScanBegins<T>(fetch: Window -> Result<seq<T>>, weigh: seq<T> -> nat, ws: seq<Window>, limit: Option<u64>)
    ensures WeightScanLeft(fetch, weigh, WeightScan(fetch, weigh, ws, 0, limit), [], [], ws, 0, limit)
  {
    ThenOkNothing(WeightScan(fetch, weigh, ws, 0, limit));
  }

  /** A window that does not stop the scan moves its records and itself
      from the rest of the scan to what was found. */
  lemma WeightScanAdvances<T>(fetch: Window -> Result<seq<T>>, weigh: seq<T> -> nat, sc: Scan<Result<seq<T>>>,
                              records: seq<T>, fetched: seq<Window>, w: Window, ws: seq<Window>, total: nat,
                              found: seq<T>, newTotal: nat, limit: Option<u64>)
    requires WeightScanLeft(fetch, weigh, sc, records, fetched, [w] + ws, total, limit)
    requires fetch(w) == Ok(found) && newTotal == total + weigh(found) && !Reached(newTotal, limit)
    ensures WeightScanLeft(fetch, weigh, sc, records + found, fetched + [w], ws, newTotal, limit)
  {
    WeightScanCons(fetch, weigh, w, ws, total, limit);
    ThenOkThenOk(records, fetched, found, [w], WeightScan(fetch, weigh, ws, total + weigh(found), limit));
  }

  /** A window that brings the total to the limit ends the scan after it. */
  lemma WeightScanStops<T>(fetch: Window -> Result<seq<T>>, weigh: seq<T> -> nat, sc: Scan<Result<seq<T>>>,
                           records: seq<T>, fetched: seq<Window>, w: Window, ws: seq<Window>, total: nat,
                           found: seq<T>, limit: Option<u64>)
    requires WeightScanLeft(fetch, weigh, sc, records, fetched, [w] + ws, total, limit)
    requires fetch(w) == Ok(found) && Reached(total + weigh(found), limit)
    ensures sc == Scan(Ok(records + found), fetched + [w])
  {
    WeightScanCons(fetch, weigh, w, ws, total, limit);
  }

  /** A window whose request fails ends the scan with that error. */
  lemma WeightScanFails<T>(fetch: Window -> Result<seq<T>>, weigh: seq<T> -> nat, sc: Scan<Result<seq<T>>>,
                           records: seq<T>, fetched: seq<Window>, w: Window, ws: seq<Window>, total: nat,
                           limit: Option<u64>)
    requires WeightScanLeft(fetch, weigh, sc, records, fetched, [w] + ws, total, limit)
    requires fetch(w).Err?
    ensures sc == Scan(Err(fetch(w).msg), fetched + [w])
  {
    WeightScanCons(fetch, weigh, w, ws, total, limit);
  }

  /** Once no window is left, the scan has found `records`. */
  lemma WeightScanEnds<T>(fetch: Window -> Result<seq<T>>, weigh: seq<T> -> nat, sc: Scan<Result<seq<T>>>,
                          records: seq<T>, fetched: seq<Window>, total: nat, limit: Option<u64>)
    requires WeightScanLeft(fetch, weigh, sc, records, fetched, [], total, limit)
    ensures sc == Scan(Ok(records), fetched)
  {
    assert records + [] == records && fetched + [] == fetched;
  }

  /** The reference result: what the windows give, concatenated in window
      order, or the error of the first window whose request fails. */
  function AllFound<T>(fetch: Window -> Result<seq<T>>, ws: seq<Window>): Result<seq<T>> {
    if ws == [] then Ok([])
    else
      var found :- fetch(ws[0]);
      var more :- AllFound(fetch, ws[1..]);
      Ok(found + more)
  }

  lemma AllFoundOne<T>(fetch: Window -> Result<seq<T>>, w: Window)
    ensures AllFound(fetch, [w]) == fetch(w)
  {
    assert [w][1..] == [];
    if fetch(w).Ok? {
      assert fetch(w).value + [] == fetch(w).value;
    }
  }

  lemma AllFoundCons<T>(fetch: Window -> Result<seq<T>>, w: Window, ws: seq<Window>)
    ensures AllFound(fetch, [w] + ws) ==
            match fetch(w)
            case Err(e) => Err(e)
            case Ok(found) => (match AllFound(fetch, ws) case Ok(more) => Ok(found + more) case Err(e) => Err(e))
  {
    assert ([w] + ws)[0] == w && ([w] + ws)[1..] == ws;
  }

  /** A window put before the others keeps their last one last, and the
      windows before it all succeed when they did before. */
  lemma AllFoundLastCons<T>(fetch: Window -> Result<seq<T>>, w: Window, fs: seq<Window>)
    requires |fs| >= 1 && fetch(w).Ok? && AllFound(fetch, fs[..|fs| - 1]).Ok?
    ensures ([w] + fs)[|fs|] == fs[|fs| - 1] && AllFound(fetch, ([w] + fs)[..|fs|]).Ok?
  {
    assert ([w] + fs)[..|fs|] == [w] + fs[..|fs| - 1];
    AllFoundCons(fetch, w, fs[..|fs| - 1]);
  }

  /** A reference result exists only when every request succeeded. */
  lemma {:induction false} AllFoundRequests<T>(fetch: Window -> Result<seq<T>>, ws: seq<Window>)
    requires AllFound(fetch, ws).Ok?
    ensures forall j :: 0 <= j < |ws| ==> fetch(ws[j]).Ok?
    decreases |ws|
  {
    if ws != [] {
      AllFoundRequests(fetch, ws[1..]);
      forall j | 0 < j < |ws|
        ensures fetch(ws[j]).Ok?
      {
        assert ws[j] == ws[1..][j - 1];
      }
    }
  }

  /** The reference result holds exactly what some window gave. */
  lemma {:induction false} AllFoundMembers<T>(fetch: Window -> Result<seq<T>>, ws: seq<Window>, x: T)
    requires AllFound(fetch, ws).Ok?
    ensures x in AllFound(fetch, ws).value <==> exists j :: 0 <= j < |ws| && fetch(ws[j]).Ok? && x in fetch(ws[j]).value
    decreases |ws|
  {
    if ws != [] {
      AllFoundMembers(fetch, ws[1..], x);
      assert AllFound(fetch, ws).value == fetch(ws[0]).value + AllFound(fetch, ws[1..]).value;
      if x in AllFound(fetch, ws[1..]).value {
        var j :| 0 <= j < |ws[1..]| && fetch(ws[1..][j]).Ok? && x in fetch(ws[1..][j]).value;
        assert ws[j + 1] == ws[1..][j];
      }
      if exists j :: 0 <= j < |ws| && fetch(ws[j]).Ok? && x in fetch(ws[j]).value {
        var j :| 0 <= j < |ws| && fetch(ws[j]).Ok? && x in fetch(ws[j]).value;
        if j > 0 {
          assert ws[1..][j - 1] == ws[j];
        }
      }
    }
  }

  /** The scan requests a prefix of the windows, at least one when there is one. */
  lemma {:induction false} WeightScanPrefix<T>(fetch: Window -> Result<seq<T>>, weigh: seq<T> -> nat, ws: seq<Window>,
                                               total: nat, limit: Option<u64>)
    ensures var sc := WeightScan(fetch, weigh, ws, total, limit);
            |sc.fetched| <= |ws| && sc.fetched == ws[..|sc.fetched|] && (ws != [] ==> |sc.fetched| >= 1)
    decreases |ws|
  {
    if ws != [] {
      var w := ws[0];
      match fetch(w)
      case Err(e) =>
      case Ok(found) =>
        var t := total + weigh(found);
        if !Reached(t, limit) {
          WeightScanPrefix(fetch, weigh, ws[1..], t, limit);
          assert ws == [w] + ws[1..];
        }
    }
  }

  /** The scan returns what the reference returns for the windows it requested. */
  lemma {:induction false} WeightScanReturnsFound<T>(fetch: Window -> Result<seq<T>>, weigh: seq<T> -> nat,
                                                     ws: seq<Window>, total: nat, limit: Option<u64>)
    ensures var sc := WeightScan(fetch, weigh, ws, total, limit);
            sc.result == AllFound(fetch, sc.fetched)
    decreases |ws|
  {
    if ws != [] {
      var w := ws[0];
      AllFoundOne(fetch, w);
      match fetch(w)
      case Err(e) =>
      case Ok(found) =>
        var t := total + weigh(found);
        if !Reached(t, limit) {
          var rest := WeightScan(fetch, weigh, ws[1..], t, limit);
          WeightScanReturnsFound(fetch, weigh, ws[1..], t, limit);
          AllFoundCons(fetch, w, rest.fetched);
        }
    }
  }

  /** A failed scan failed at its last request, all earlier ones having succeeded. */
  lemma {:induction false} WeightScanFailsLast<T>(fetch: Window -> Result<seq<T>>, weigh: seq<T> -> nat,
                                                  ws: seq<Window>, total: nat, limit: Option<u64>)
    ensures var sc := WeightScan(fetch, weigh, ws, total, limit);
            sc.result.Err? ==>
              |sc.fetched| >= 1 && fetch(sc.fetched[|sc.fetched| - 1]) == sc.result
              && AllFound(fetch, sc.fetched[..|sc.fetched| - 1]).Ok?
    decreases |ws|
  {
    var sc := WeightScan(fetch, weigh, ws, total, limit);
    if ws != [] {
      var w := ws[0];
      assert sc == WeightStep(fetch, weigh, w, ws[1..], total, limit);
      assert [w][..0] == [];
      match fetch(w)
      case Err(e) =>
      case Ok(found) =>
        var t := total + weigh(found);
        if !Reached(t, limit) {
          var rest := WeightScan(fetch, weigh, ws[1..], t, limit);
          WeightScanFailsLast(fetch, weigh, ws[1..], t, limit);
          if sc.result.Err? {
            assert sc.fetched == [w] + rest.fetched;
            AllFoundLastCons(fetch, w, rest.fetched);
          }
        }
    }
  }

  /** The stop rule: a scan that succeeds ends early only when the total
      reached the limit, after a whole window, so the total may overshoot. */
  lemma {:induction false} WeightScanStopRule<T(!new)>(fetch: Window -> Result<seq<T>>, weigh: seq<T> -> nat,
                                                 ws: seq<Window>, total: nat, limit: Option<u64>)
    requires Additive(weigh)
    ensures var sc := WeightScan(fetch, weigh, ws, total, limit);
            sc.result.Ok? && |sc.fetched| < |ws| ==> Reached(total + weigh(sc.result.value), limit)
    decreases |ws|
  {
    var sc := WeightScan(fetch, weigh, ws, total, limit);
    if ws != [] {
      var w := ws[0];
      assert sc == WeightStep(fetch, weigh, w, ws[1..], total, limit);
      match fetch(w)
      case Err(e) =>
      case Ok(found) =>
        var t := total + weigh(found);
        if !Reached(t, limit) {
          var rest := WeightScan(fetch, weigh, ws[1..], t, limit);
          WeightScanStopRule(fetch, weigh, ws[1..], t, limit);
          if sc.result.Ok? {
            assert weigh(found + rest.result.value) == weigh(found) + weigh(rest.result.value);
          }
        }
    }
  }

  /** Without a limit a scan that succeeds requests every window. */
  lemma WeightScanNoLimit<T(!new)>(fetch: Window -> Result<seq<T>>, weigh: seq<T> -> nat, ws: seq<Window>, total: nat)
    requires Additive(weigh)
    ensures var sc := WeightScan(fetch, weigh, ws, total, None);
            sc.result.Ok? ==> sc.fetched == ws
  {
    WeightScanStopRule(fetch, weigh, ws, total, None);
    WeightScanPrefix(fetch, weigh, ws, total, None);
  }

  /** The scan did not stop at any earlier window: the total after every
      shorter prefix of the requested windows stayed below the limit. */
  lemma {:induction false} WeightScanKeptGoing<T(!new)>(fetch: Window -> Result<seq<T>>, weigh: seq<T> -> nat,
                                                  ws: seq<Window>, total: nat, limit: Option<u64>)
    requires Additive(weigh)
    ensures forall k :: 0 < k < |WeightScan(fetch, weigh, ws, total, limit).fetched| ==>
              var before := AllFound(fetch, WeightScan(fetch, weigh, ws, total, limit).fetched[..k]);
              before.Ok? && !Reached(total + weigh(before.value), limit)
    decreases |ws|
  {
    var sc := WeightScan(fetch, weigh, ws, total, limit);
    if |sc.fetched| > 1 {
      var w := ws[0];
      assert sc == WeightStep(fetch, weigh, w, ws[1..], total, limit);
      var found := fetch(w).value;
      var t := total + weigh(found);
      var rest := WeightScan(fetch, weigh, ws[1..], t, limit);
      assert sc.fetched == [w] + rest.fetched;
      WeightScanKeptGoing(fetch, weigh, ws[1..], t, limit);
      forall k | 0 < k < |sc.fetched|
        ensures AllFound(fetch, sc.fetched[..k]).Ok? && !Reached(total + weigh(AllFound(fetch, sc.fetched[..k]).value), limit)
      {
        assert sc.fetched[..k] == [w] + rest.fetched[..k - 1];
        AllFoundCons(fetch, w, rest.fetched[..k - 1]);
        if k == 1 {
          assert rest.fetched[..0] == [];
          assert found + [] == found;
        } else {
          var before := AllFound(fetch, rest.fetched[..k - 1]);
          assert 0 < k - 1 < |rest.fetched|;
          assert before.Ok? && !Reached(t + weigh(before.value), limit);
          assert weigh(found + before.value) == weigh(found) + weigh(before.value);
        }
      }
    }
  }

  /* ---------- a scan stopped by a number of records, that may panic ---------- */

  /** The scan over the windows `ws`, `count` records having been found
      before: nothing to do without windows, otherwise a step over the first. */
  function CountScan<T>(fetch: Window -> Outcome<seq<T>>, ws: seq<Window>, count: nat, limit: nat): Scan<Outcome<seq<T>>>
    decreases |ws|, 1
  {
    if ws == [] then Scan(Returned(Ok([])), []) else CountStep(fetch, ws[0], ws[1..], count, limit)
  }

  /** One window `w`, `ws` coming after it: a request error or a panic ends
      the scan; after the window it stops once the count reaches `limit`,
      and goes on with `ws` otherwise. */
  function CountStep<T>(fetch: Window -> Outcome<seq<T>>, w: Window, ws: seq<Window>, count: nat, limit: nat)
    : Scan<Outcome<seq<T>>>
    decreases |ws| + 1, 0
  {
    match fetch(w)
    case Returned(Ok(found)) =>
      if count + |found| >= limit then Scan(Returned(Ok(found)), [w])
      else ThenOutcome(found, [w], CountScan(fetch, ws, count + |found|, limit))
    case other => Scan(other, [w])
  }

  /** The scan over a window and the ones after it is the step over that window. */
  lemma CountScanCons<T>(fetch: Window -> Outcome<seq<T>>, w: Window, ws: seq<Window>, count: nat, limit: nat)
    ensures CountScan(fetch, [w] + ws, count, limit) == CountStep(fetch, w, ws, count, limit)
  {
    assert ([w] + ws)[0] == w && ([w] + ws)[1..] == ws;
  }

  /** What a loop running the scan keeps: the whole scan `sc` is the
      `records` already found and the windows `fetched` already requested,
      followed by the scan over the windows `ahead`. */
  ghost predicate CountScanLeft<T>(fetch: Window -> Outcome<seq<T>>, sc: Scan<Outcome<seq<T>>>, records: seq<T>,
                                   fetched: seq<Window>, ahead: seq<Window>, limit: nat)
  {
    sc == ThenOutcome(records, fetched, CountScan(fetch, ahead, |records|, limit))
  }

  /** Before the first window: nothing found, nothing requested. */
  lemma CountScanBegins<T>(fetch: Window -> Outcome<seq<T>>, ws: seq<Window>, limit: nat)
    ensures CountScanLeft(fetch, CountScan(fetch, ws, 0, limit), [], [], ws, limit)
  {
    ThenOutcomeNothing(CountScan(fetch, ws, 0, limit));
  }

  /** A window that fails, panics or reaches the limit ends the scan with
      what it gives after the records found before. */
  lemma CountScanStops<T>(fetch: Window -> Outcome<seq<T>>, sc: Scan<Outcome<seq<T>>>, records: seq<T>,
                          fetched: seq<Window>, w: Window, ws: seq<Window>, limit: nat)
    requires CountScanLeft(fetch, sc, records, fetched, [w] + ws, limit)
    requires !(fetch(w).Returned? && fetch(w).result.Ok? && |records| + |fetch(w).result.value| < limit)
    ensures sc == ThenOutcome(records, fetched + [w], Scan(fetch(w), []))
  {
    CountScanCons(fetch, w, ws, |records|, limit);
  }

  /** A window below the limit moves its records and itself from the rest
      of the scan to what was found. */
  lemma CountScanAdvances<T>(fetch: Window -> Outcome<seq<T>>, sc: Scan<Outcome<seq<T>>>, records: seq<T>,
                             fetched: seq<Window>, w: Window, ws: seq<Window>, found: seq<T>, limit: nat)
    requires CountScanLeft(fetch, sc, records, fetched, [w] + ws, limit)
    requires fetch(w) == Returned(Ok(found)) && |records| + |found| < limit
    ensures CountScanLeft(fetch, sc, records + found, fetched + [w], ws, limit)
  {
    CountScanCons(fetch, w, ws, |records|, limit);
    ThenOutcomeThenOutcome(records, fetched, found, [w], CountScan(fetch, ws, |records| + |found|, limit));
  }

  /** Once no window is left, the scan has found `records`. */
  lemma CountScanEnds<T>(fetch: Window -> Outcome<seq<T>>, sc: Scan<Outcome<seq<T>>>, records: seq<T>,
                         fetched: seq<Window>, limit: nat)
    requires CountScanLeft(fetch, sc, records, fetched, [], limit)
    ensures sc == Scan(Returned(Ok(records)), fetched)
  {
    assert records + [] == records && fetched + [] == fetched;
  }

  /** The reference result: what the windows give in window order, or the
      first request error or panic. */
  function AllOutcome<T>(fetch: Window -> Outcome<seq<T>>, ws: seq<Window>): Outcome<seq<T>> {
    if ws == [] then Returned(Ok([]))
    else
      match fetch(ws[0])
      case Returned(Ok(found)) =>
        (match AllOutcome(fetch, ws[1..])
         case Returned(Ok(more)) => Returned(Ok(found + more))
         case other => other)
      case other => other
  }

  lemma AllOutcomeCons<T>(fetch: Window -> Outcome<seq<T>>, w: Window, ws: seq<Window>)
    ensures AllOutcome(fetch, [w] + ws) ==
            match fetch(w)
            case Returned(Ok(found)) =>
              (match AllOutcome(fetch, ws) case Returned(Ok(more)) => Returned(Ok(found + more)) case other => other)
            case other => other
  {
    assert ([w] + ws)[0] == w && ([w] + ws)[1..] == ws;
  }

  lemma AllOutcomeOne<T>(fetch: Window -> Outcome<seq<T>>, w: Window)
    ensures AllOutcome(fetch, [w]) == fetch(w)
  {
    AllOutcomeCons(fetch, w, []);
    assert [w] + [] == [w];
    if fetch(w).Returned? && fetch(w).result.Ok? {
      assert fetch(w).result.value + [] == fetch(w).result.value;
    }
  }

  /** A reference result that returns holds exactly what some window
      returned, every window having returned. */
  lemma {:induction false} AllOutcomeMembers<T>(fetch: Window -> Outcome<seq<T>>, ws: seq<Window>, x: T)
    requires AllOutcome(fetch, ws).Returned? && AllOutcome(fetch, ws).result.Ok?
    ensures forall j :: 0 <= j < |ws| ==> fetch(ws[j]).Returned? && fetch(ws[j]).result.Ok?
    ensures x in AllOutcome(fetch, ws).result.value <==>
            exists j :: 0 <= j < |ws| && x in fetch(ws[j]).result.value
    decreases |ws|
  {
    if ws != [] {
      AllOutcomeMembers(fetch, ws[1..], x);
      assert AllOutcome(fetch, ws).result.value == fetch(ws[0]).result.value + AllOutcome(fetch, ws[1..]).result.value;
      forall j | 0 < j < |ws|
        ensures fetch(ws[j]).Returned? && fetch(ws[j]).result.Ok?
      {
        assert ws[j] == ws[1..][j - 1];
      }
      if x in AllOutcome(fetch, ws[1..]).result.value {
        var j :| 0 <= j < |ws[1..]| && x in fetch(ws[1..][j]).result.value;
        assert ws[j + 1] == ws[1..][j];
      }
      if exists j :: 0 <= j < |ws| && x in fetch(ws[j]).result.value {
        var j :| 0 <= j < |ws| && x in fetch(ws[j]).result.value;
        if j > 0 {
          assert ws[1..][j - 1] == ws[j];
        }
      }
    }
  }

  /** The scan requests a prefix of its windows, at least one when there is one. */
  lemma {:induction false} CountScanPrefix<T>(fetch: Window -> Outcome<seq<T>>, ws: seq<Window>, count: nat, limit: nat)
    ensures var sc := CountScan(fetch, ws, count, limit);
            |sc.fetched| <= |ws| && sc.fetched == ws[..|sc.fetched|] && (ws != [] ==> |sc.fetched| >= 1)
    decreases |ws|
  {
    if ws != [] {
      var w := ws[0];
      match fetch(w)
      case Returned(Ok(found)) =>
        if count + |found| < limit {
          CountScanPrefix(fetch, ws[1..], count + |found|, limit);
          assert ws == [w] + ws[1..];
        }
      case other =>
    }
  }

  /** The scan returns what the reference returns for the windows it requested. */
  lemma {:induction false} CountScanReturnsFound<T>(fetch: Window -> Outcome<seq<T>>, ws: seq<Window>, count: nat,
                                                    limit: nat)
    ensures var sc := CountScan(fetch, ws, count, limit);
            sc.result == AllOutcome(fetch, sc.fetched)
    decreases |ws|
  {
    if ws != [] {
      var w := ws[0];
      AllOutcomeOne(fetch, w);
      match fetch(w)
      case Returned(Ok(found)) =>
        if count + |found| < limit {
          var rest := CountScan(fetch, ws[1..], count + |found|, limit);
          CountScanReturnsFound(fetch, ws[1..], count + |found|, limit);
          AllOutcomeCons(fetch, w, rest.fetched);
        }
      case other =>
    }
  }

  /** A request error or a panic is the outcome of the last window requested. */
  lemma {:induction false} CountScanFailsLast<T>(fetch: Window -> Outcome<seq<T>>, ws: seq<Window>, count: nat,
                                                 limit: nat)
    ensures var sc := CountScan(fetch, ws, count, limit);
            !(sc.result.Returned? && sc.result.result.Ok?) ==>
              |sc.fetched| >= 1 && fetch(sc.fetched[|sc.fetched| - 1]) == sc.result
    decreases |ws|
  {
    var sc := CountScan(fetch, ws, count, limit);
    if ws != [] {
      var w := ws[0];
      assert sc == CountStep(fetch, w, ws[1..], count, limit);
      match fetch(w)
      case Returned(Ok(found)) =>
        if count + |found| < limit {
          var rest := CountScan(fetch, ws[1..], count + |found|, limit);
          CountScanFailsLast(fetch, ws[1..], count + |found|, limit);
          if !(sc.result.Returned? && sc.result.result.Ok?) {
            assert sc.fetched == [w] + rest.fetched;
            assert sc.fetched[|sc.fetched| - 1] == rest.fetched[|rest.fetched| - 1];
          }
        }
      case other =>
    }
  }

  /** The stop rule: the scan ends early only once the number of records
      reached the limit, after a whole window, and at no earlier window. */
  lemma {:induction false} CountScanStopRule<T>(fetch: Window -> Outcome<seq<T>>, ws: seq<Window>, count: nat, limit: nat)
    ensures var sc := CountScan(fetch, ws, count, limit);
            (sc.result.Returned? && sc.result.result.Ok? && |sc.fetched| < |ws| ==>
               count + |sc.result.result.value| >= limit)
            && (forall k :: 0 < k < |sc.fetched| ==>
                  AllOutcome(fetch, sc.fetched[..k]).Returned? && AllOutcome(fetch, sc.fetched[..k]).result.Ok?
                  && count + |AllOutcome(fetch, sc.fetched[..k]).result.value| < limit)
    decreases |ws|
  {
    var sc := CountScan(fetch, ws, count, limit);
    if ws != [] {
      var w := ws[0];
      assert sc == CountStep(fetch, w, ws[1..], count, limit);
      match fetch(w)
      case Returned(Ok(found)) =>
        if count + |found| < limit {
          var rest := CountScan(fetch, ws[1..], count + |found|, limit);
          CountScanStopRule(fetch, ws[1..], count + |found|, limit);
          assert sc.fetched == [w] + rest.fetched;
          forall k | 0 < k < |sc.fetched|
            ensures AllOutcome(fetch, sc.fetched[..k]).Returned? && AllOutcome(fetch, sc.fetched[..k]).result.Ok?
                    && count + |AllOutcome(fetch, sc.fetched[..k]).result.value| < limit
          {
            assert sc.fetched[..k] == [w] + rest.fetched[..k - 1];
            AllOutcomeCons(fetch, w, rest.fetched[..k - 1]);
            if k == 1 {
              assert rest.fetched[..0] == [];
              assert found + [] == found;
            }
          }
        }
      case other =>
    }
  }
}
