/** The dispatcher's code: its transactions as methods on the tables, and one round of
    `dispatch_once` when no other dispatcher interferes. What holds under interference is proved in
    Dispatcher. */
module Dispatching {
  import opened Prelude
  import opened Outbox
  import opened Store
  import Dispatcher

  /** The ids selected for a round. */
  function DueIds(rows: seq<OutRow>, now: int): (ids: seq<nat>)
    ensures forall i :: 0 <= i < |ids| ==> ids[i] < |rows| && Due(rows[ids[i]], now)
    ensures forall k :: 0 <= k < |rows| && Due(rows[k], now) ==> k in ids
    ensures forall i, j :: 0 <= i < j < |ids| ==> ids[i] < ids[j]
  {
    if rows == [] then []
    else
      var n := |rows| - 1;
      var ids := DueIds(rows[..n], now);
      if Due(rows[n], now) then ids + [n] else ids
  }

  method CandidateIds(rows: seq<OutRow>, now: int) returns (ids: seq<nat>)
    ensures ids == DueIds(rows, now)
  {
    ids := [];
    var n := 0;
    while n < |rows|
      invariant 0 <= n <= |rows|
      invariant ids == DueIds(rows[..n], now)
    {
      assert rows[..n + 1][..n] == rows[..n];
      if Due(rows[n], now) {
        ids := ids + [n];
      }
      n := n + 1;
    }
    assert rows[..n] == rows;
  }

  /** What one undisturbed delivery makes of a row that is due. */
  function Delivered(r: OutRow, o: PostOutcome, p: Policy, clock: int): OutRow {
    WriteBack(r, r.attempts, Dispatcher.PostOk(o), Dispatcher.PostError(o, r.target), p, clock)
  }

  /** One undisturbed delivery uses exactly one attempt, and ends the row unless the post failed
      with attempts to spare: then it is due again once the back-off has passed. */
  lemma DeliveredProgress(r: OutRow, o: PostOutcome, p: Policy, clock: int)
    requires WithinBudget(CellOf(r), p.maxAttempts) && r.status in {PENDING, RETRY}
    ensures var r' := Delivered(r, o, p, clock);
            && WithinBudget(CellOf(r'), p.maxAttempts)
            && r'.attempts == r.attempts + 1
            && r' == Dispatcher.WrittenBack(r, o, p, clock)
            && (r'.status == SENT <==> o.Answered? && o.code < 300)
            && (r'.status == RETRY ==> forall now: int :: Due(r', now) <==> now >= clock + p.backoffBase * Pow2(r.attempts))
            && Pow2(0) == 1 && Pow2(r.attempts + 1) == 2 * Pow2(r.attempts)
  {
  }

  /** `_reclaim_stale_sending` */
  method ReclaimStaleSending(db: Database, now: int, timeout: int)
    requires db.Valid()
    modifies db`outbox, db`tables
    ensures db.Valid()
    ensures db.tables == old(db.tables).(outbox := ReclaimRows(old(db.outbox), now, timeout))
  {
    var i := 0;
    while i < |db.outbox|
      invariant 0 <= i <= |db.outbox| == |old(db.outbox)|
      invariant db.outbox[..i] == ReclaimRows(old(db.outbox), now, timeout)[..i]
      invariant db.outbox[i..] == old(db.outbox)[i..]
      invariant db.tables == old(db.tables).(outbox := db.outbox)
      invariant db.Valid()
    {
      var row := db.outbox[i];
      assert row == old(db.outbox)[i];
      if Stale(row, now, timeout) {
        db.outbox := db.outbox[i := ReclaimRow(row)];
        db.tables := db.tables.(outbox := db.outbox);
      }
      i := i + 1;
    }
  }

  /** The conditional update that takes a row. */
  method Claim(db: Database, oid: nat, now: int, clock: int, token: nat) returns (claimed: bool)
    requires db.Valid()
    modifies db`outbox, db`tables
    ensures db.Valid()
    ensures claimed <==> oid < |old(db.outbox)| && Due(old(db.outbox)[oid], now)
    ensures db.tables == old(db.tables).(outbox :=
              if claimed then old(db.outbox)[oid := ClaimRow(old(db.outbox)[oid], clock, token)] else old(db.outbox))
  {
    claimed := oid < |db.outbox| && Due(db.outbox[oid], now);
    if claimed {
      db.outbox := db.outbox[oid := ClaimRow(db.outbox[oid], clock, token)];
      db.tables := db.tables.(outbox := db.outbox);
    }
  }

  /** `_finalize_after_send`: a write-back that no longer owns its row changes nothing. */
  method FinalizeAfterSend(db: Database, oid: nat, token: nat, attemptsBefore: nat, ok: bool, error: Option<string>,
                           p: Policy, clock: int) returns (updated: bool)
    requires db.Valid()
    modifies db`outbox, db`tables
    ensures db.Valid()
    ensures updated <==> oid < |old(db.outbox)| && OwnedBy(old(db.outbox)[oid], token)
    ensures db.tables == old(db.tables).(outbox :=
              if updated then old(db.outbox)[oid := WriteBack(old(db.outbox)[oid], attemptsBefore, ok, error, p, clock)]
              else old(db.outbox))
  {
    updated := oid < |db.outbox| && OwnedBy(db.outbox[oid], token);
    if updated {
      var newAttempts := attemptsBefore + 1;
      var row := db.outbox[oid].(attempts := newAttempts, lockedAt := None, token := None);
      if ok {
        row := row.(status := SENT);
      } else if newAttempts >= p.maxAttempts {
        row := row.(status := DEAD, lastError := error);
      } else {
        row := row.(status := RETRY, lastError := error, nextRetryAt := Some(clock + p.backoffBase * Pow2(newAttempts - 1)));
      }
      db.outbox := db.outbox[oid := row];
      db.tables := db.tables.(outbox := db.outbox);
    }
  }

  /** `replay_dead` */
  method ReplayDead(db: Database, oid: nat) returns (replayed: bool)
    requires db.Valid()
    modifies db`outbox, db`tables
    ensures db.Valid()
    ensures replayed <==> oid < |old(db.outbox)| && old(db.outbox)[oid].status == DEAD
    ensures db.tables == old(db.tables).(outbox :=
              if replayed then old(db.outbox)[oid := ReplayRow(old(db.outbox)[oid])] else old(db.outbox))
  {
    if oid >= |db.outbox| || db.outbox[oid].status != DEAD {
      return false;
    }
    db.outbox := db.outbox[oid := ReplayRow(db.outbox[oid])];
    db.tables := db.tables.(outbox := db.outbox);
    replayed := true;
  }

  /** Claim, read, post and write back one row, with nobody in between. */
  method DeliverOne(db: Database, oid: nat, now: int, clock: int, token: nat, outcome: PostOutcome, p: Policy)
    returns (finalized: bool)
    requires db.Valid()
    modifies db`outbox, db`tables
    ensures db.Valid()
    ensures finalized <==> oid < |old(db.outbox)| && Due(old(db.outbox)[oid], now)
    ensures db.tables == old(db.tables).(outbox := db.outbox)
    ensures db.outbox == if finalized then old(db.outbox)[oid := Delivered(old(db.outbox)[oid], outcome, p, clock)]
                         else old(db.outbox)
  {
    hide DueIds;
    var claimed := Claim(db, oid, now, clock, token);
    if !claimed {
      return false;
    }
    var row := db.outbox[oid];
    finalized := FinalizeAfterSend(db, oid, token, row.attempts, Dispatcher.PostOk(outcome),
                                   Dispatcher.PostError(outcome, row.target), p, clock);
  }

  type Posts = nat -> PostOutcome

  /** The rows after the first `n` of the selected ids were delivered in turn. */
  function AfterFirst(rows: seq<OutRow>, ids: seq<nat>, n: nat, post: Posts, p: Policy, clock: int): (r: seq<OutRow>)
    requires n <= |ids|
    requires forall i :: 0 <= i < |ids| ==> ids[i] < |rows|
    ensures |r| == |rows|
  {
    if n == 0 then rows
    else
      var before := AfterFirst(rows, ids, n - 1, post, p, clock);
      var oid := ids[n - 1];
      before[oid := Delivered(before[oid], post(oid), p, clock)]
  }

  /** Ids in ascending order do not get in each other's way. */
  lemma {:induction false} DeliveredOnce(rows: seq<OutRow>, ids: seq<nat>, n: nat, post: Posts, p: Policy, clock: int, i: nat)
    requires n <= |ids| && i < |rows|
    requires forall j :: 0 <= j < |ids| ==> ids[j] < |rows|
    requires forall j, k :: 0 <= j < k < |ids| ==> ids[j] < ids[k]
    ensures AfterFirst(rows, ids, n, post, p, clock)[i] ==
            if i in ids[..n] then Delivered(rows[i], post(i), p, clock) else rows[i]
  {
    hide Delivered;
    if n > 0 {
      assert ids[..n] == ids[..n - 1] + [ids[n - 1]];
      DeliveredOnce(rows, ids, n - 1, post, p, clock, i);
    }
  }

  /** What a lone round makes of each row. */
  function AfterRound(r: OutRow, o: PostOutcome, now: int, p: Policy, clock: int): OutRow {
    if Due(r, now) then Delivered(r, o, p, clock) else r
  }

  /** `after` is what a lone round makes of `rows`. */
  ghost predicate RoundDone(rows: seq<OutRow>, after: seq<OutRow>, now: int, post: Posts, p: Policy, clock: int) {
    && |after| == |rows|
    && forall i :: 0 <= i < |rows| ==> after[i] == AfterRound(rows[i], post(i), now, p, clock)
  }

  lemma RoundIsDone(rows: seq<OutRow>, now: int, post: Posts, p: Policy, clock: int)
    ensures var ids := DueIds(rows, now); RoundDone(rows, AfterFirst(rows, ids, |ids|, post, p, clock), now, post, p, clock)
  {
    var ids := DueIds(rows, now);
    hide Delivered, Due, DueIds;
    assert ids[..|ids|] == ids;
    forall i | 0 <= i < |rows|
      ensures AfterFirst(rows, ids, |ids|, post, p, clock)[i] == AfterRound(rows[i], post(i), now, p, clock)
    {
      DeliveredOnce(rows, ids, |ids|, post, p, clock, i);
    }
  }

  lemma NextIsDue(rows: seq<OutRow>, now: int, n: nat, post: Posts, p: Policy, clock: int)
    requires n < |DueIds(rows, now)|
    ensures var ids := DueIds(rows, now);
            ids[n] < |rows| && Due(AfterFirst(rows, ids, n, post, p, clock)[ids[n]], now)
  {
    var ids := DueIds(rows, now);
    DeliveredOnce(rows, ids, n, post, p, clock, ids[n]);
  }

  /** What a lone round makes of a row, given what its post is answered. */
  function AfterDispatch(r: OutRow, a: PostOutcome, now: int, timeout: int, p: Policy, clock: int): OutRow {
    var s := Dispatcher.TakenBack(r, now, timeout);
    if Dispatcher.ToSend(s, now) then Dispatcher.WrittenBack(s, a, p, clock) else s
  }

  function CountToSend(rows: seq<OutRow>, now: int, timeout: int): nat {
    if rows == [] then 0
    else CountToSend(rows[..|rows| - 1], now, timeout) + if Dispatcher.ToSend(Dispatcher.TakenBack(rows[|rows| - 1], now, timeout), now) then 1 else 0
  }

  lemma {:induction false} CountsDue(rows: seq<OutRow>, now: int, timeout: int)
    ensures |DueIds(ReclaimRows(rows, now, timeout), now)| == CountToSend(rows, now, timeout)
  {
    if rows != [] {
      var n := |rows| - 1;
      CountsDue(rows[..n], now, timeout);
      assert ReclaimRows(rows, now, timeout)[..n] == ReclaimRows(rows[..n], now, timeout);
    }
  }

  lemma RoundRow(r: OutRow, a: PostOutcome, now: int, timeout: int, p: Policy, clock: int)
    ensures var s := if Stale(r, now, timeout) then ReclaimRow(r) else r;
            AfterRound(s, a, now, p, clock) == AfterDispatch(r, a, now, timeout, p, clock)
  {
  }

  lemma RoundReads(rows: seq<OutRow>, after: seq<OutRow>, now: int, timeout: int, post: Posts, p: Policy, clock: int)
    requires RoundDone(ReclaimRows(rows, now, timeout), after, now, post, p, clock)
    ensures |after| == |rows| && forall i :: 0 <= i < |rows| ==> after[i] == AfterDispatch(rows[i], post(i), now, timeout, p, clock)
  {
    forall i | 0 <= i < |rows| ensures after[i] == AfterDispatch(rows[i], post(i), now, timeout, p, clock) {
      RoundRow(rows[i], post(i), now, timeout, p, clock);
    }
    hide Delivered, Due, AfterDispatch, AfterRound;
  }

  /** `dispatch_once` alone, row by row: stale claims are taken back, every row that is to be sent then is
      delivered exactly once with the answer its post gets, all others stay, and the count is that of the
      rows delivered. */
  method DispatchOnce(db: Database, now: int, timeout: int, clock: int, p: Policy, post: Posts, nextToken: nat)
    returns (handled: nat)
    requires db.Valid()
    modifies db`outbox, db`tables
    ensures db.Valid()
    ensures db.tables == old(db.tables).(outbox := db.outbox)
    ensures |db.outbox| == |old(db.outbox)|
    ensures forall i :: 0 <= i < |db.outbox| ==>
              db.outbox[i] == AfterDispatch(old(db.outbox)[i], post(i), now, timeout, p, clock)
    ensures handled == CountToSend(old(db.outbox), now, timeout)
  {
    hide AfterDispatch, CountToSend;
    hide Delivered, Due, RoundDone, DueIds, ReclaimRows;
    ReclaimStaleSending(db, now, timeout);
    ghost var rows := db.outbox;
    var dueIds := CandidateIds(db.outbox, now);
    handled := 0;
    var n := 0;
    while n < |dueIds|
      invariant 0 <= n <= |dueIds| && handled == n
      invariant db.Valid() && db.tables == old(db.tables).(outbox := db.outbox)
      invariant db.outbox == AfterFirst(rows, dueIds, n, post, p, clock)
    {
      var oid := dueIds[n];
      NextIsDue(rows, now, n, post, p, clock);
      var finalized := DeliverOne(db, oid, now, clock, nextToken + n, post(oid), p);
      handled := handled + if finalized then 1 else 0;
      n := n + 1;
    }
    RoundIsDone(rows, now, post, p, clock);
    RoundReads(old(db.outbox), db.outbox, now, timeout, post, p, clock);
    CountsDue(old(db.outbox), now, timeout);
  }
}
