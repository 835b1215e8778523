/**
 The Telegram poll loop of internal/telegram/poller.go against the getUpdates method: a request with
 offset o confirms every update below o, and an update that is not confirmed is returned again.
 */
module Poller {
  type UpdateId = int

  /** What one getUpdates call comes back with; the three errors differ in the wait that follows. */
  datatype Reply =
    | Updates(ids: seq<UpdateId>)
    | TooManyRequests(after: nat)    // 429, seconds from Retry-After
    | BadStatus                      // 5xx or another status
    | NoReply                        // transport or decode error

  /** The loop over one batch: the offset afterwards. */
  function Advance(offset: int, ids: seq<UpdateId>): int {
    if ids == [] then offset
    else
      var o := Advance(offset, ids[..|ids| - 1]);
      var u := ids[|ids| - 1];
      if u >= o then u + 1 else o
  }

  /** The offset of the request after the given replies. */
  function Offset(replies: seq<Reply>): int {
    if replies == [] then 0
    else
      var o := Offset(replies[..|replies| - 1]);
      var r := replies[|replies| - 1];
      if r.Updates? then Advance(o, r.ids) else o
  }

  /** The updates handed to the handler, in order. */
  function Handled(replies: seq<Reply>): seq<UpdateId> {
    if replies == [] then []
    else
      var r := replies[|replies| - 1];
      Handled(replies[..|replies| - 1]) + if r.Updates? then r.ids else []
  }

  /** The waits before the next request. */
  function Waits(replies: seq<Reply>): seq<nat> {
    if replies == [] then []
    else
      var r := replies[|replies| - 1];
      Waits(replies[..|replies| - 1]) +
        match r
        case Updates(_) => []
        case TooManyRequests(after) => [after]
        case _ => [2]
  }

  /** Poll over the replies of a run that ends when the context is cancelled. */
  method Poll(replies: seq<Reply>) returns (handled: seq<UpdateId>, offset: int, waits: seq<nat>)
    ensures handled == Handled(replies) && offset == Offset(replies) && waits == Waits(replies)
  {
    handled, offset, waits := [], 0, [];
    for i := 0 to |replies|
      invariant handled == Handled(replies[..i]) && offset == Offset(replies[..i]) && waits == Waits(replies[..i])
    {
      var r := replies[i];
      assert replies[..i + 1][..i] == replies[..i];
      if !r.Updates? {
        var backoff := 2;
        if r.TooManyRequests? {
          backoff := r.after;
        }
        waits := waits + [backoff];
      } else {
        ghost var before, start := handled, offset;
        for k := 0 to |r.ids|
          invariant handled == before + r.ids[..k] && offset == Advance(start, r.ids[..k])
        {
          var u := r.ids[k];
          assert r.ids[..k + 1][..k] == r.ids[..k];
          handled := handled + [u];
          if u >= offset {
            offset := u + 1;
          }
        }
        assert r.ids[..|r.ids|] == r.ids;
      }
    }
    assert replies[..|replies|] == replies;
  }

  // ---- The waits ------------------------------------------------------------------------------

  /** How many requests came back without updates. */
  function Errors(replies: seq<Reply>): nat {
    if replies == [] then 0 else Errors(replies[..|replies| - 1]) + if replies[|replies| - 1].Updates? then 0 else 1
  }

  /**
   One wait for each request that came back without updates, in order: as long as the server asked for when it
   said there were too many, and two seconds otherwise.
   */
  lemma {:induction false} WaitsExactly(replies: seq<Reply>, n: nat)
    requires n < |replies|
    ensures |Waits(replies)| == Errors(replies)
    ensures !replies[n].Updates? ==>
      && Errors(replies[..n]) < |Waits(replies)|
      && Waits(replies)[Errors(replies[..n])] ==
         if replies[n].TooManyRequests? then replies[n].after else 2
  {
    var k := |replies| - 1;
    if k > 0 {
      WaitsExactly(replies[..k], if n < k then n else 0);
    }
    if n < k {
      assert replies[..k][..n] == replies[..n];
    }
  }

  // ---- Any server -----------------------------------------------------------------------------

  lemma {:induction false} AdvanceGrows(offset: int, ids: seq<UpdateId>)
    ensures Advance(offset, ids) >= offset && forall u :: u in ids ==> u < Advance(offset, ids)
  {
    if ids == [] {
    } else {
      var n := |ids| - 1;
      AdvanceGrows(offset, ids[..n]);
      assert ids == ids[..n] + [ids[n]];
    }
  }

  /** Whatever the server answers, the offset never decreases. */
  lemma {:induction false} OffsetNeverDecreases(replies: seq<Reply>, n: nat)
    requires n <= |replies|
    ensures Offset(replies[..n]) <= Offset(replies)
  {
    if n < |replies| {
      var k := |replies| - 1;
      OffsetNeverDecreases(replies[..k], n);
      assert replies[..k][..n] == replies[..n];
      if replies[k].Updates? {
        AdvanceGrows(Offset(replies[..k]), replies[k].ids);
      }
    } else {
      assert replies[..n] == replies;
    }
  }

  // ---- A server that returns updates in order, from the offset on -----------------------------

  ghost predicate Ascending(ids: seq<UpdateId>) {
    forall i, j :: 0 <= i < j < |ids| ==> ids[i] < ids[j]
  }

  ghost predicate AtLeast(ids: seq<UpdateId>, lo: int) {
    forall i :: 0 <= i < |ids| ==> ids[i] >= lo
  }

  ghost predicate InOrder(replies: seq<Reply>) {
    forall n :: 0 <= n < |replies| && replies[n].Updates? ==>
      Ascending(replies[n].ids) && AtLeast(replies[n].ids, Offset(replies[..n]))
  }

  lemma InOrderPrefix(replies: seq<Reply>, k: nat)
    requires InOrder(replies) && k <= |replies|
    ensures InOrder(replies[..k])
  {
    forall n | 0 <= n < k ensures replies[..k][n] == replies[n] && replies[..k][..n] == replies[..n] {
    }
  }

  lemma {:induction false} AdvanceIsLast(offset: int, ids: seq<UpdateId>)
    requires Ascending(ids) && AtLeast(ids, offset)
    ensures Advance(offset, ids) == if ids == [] then offset else ids[|ids| - 1] + 1
  {
    if |ids| <= 1 {
    } else {
      AdvanceIsLast(offset, ids[..|ids| - 1]);
      assert ids[|ids| - 2] < ids[|ids| - 1];
    }
  }

  lemma OneMoreReply(replies: seq<Reply>, r: Reply)
    ensures Handled(replies + [r]) == if r.Updates? then Handled(replies) + r.ids else Handled(replies)
    ensures Offset(replies + [r]) == if r.Updates? then Advance(Offset(replies), r.ids) else Offset(replies)
  {
    assert (replies + [r])[..|replies|] == replies;
  }

  /** The handled updates and the offset after them. */
  ghost predicate InStep(handled: seq<UpdateId>, offset: int) {
    && Ascending(handled)
    && (forall i :: 0 <= i < |handled| ==> handled[i] < offset)
    && offset == if handled == [] then 0 else handled[|handled| - 1] + 1
  }

  lemma BatchInStep(h: seq<UpdateId>, offset: int, ids: seq<UpdateId>)
    requires InStep(h, offset) && Ascending(ids) && AtLeast(ids, offset)
    ensures InStep(h + ids, Advance(offset, ids))
  {
    AdvanceIsLast(offset, ids);
    forall i | 0 <= i < |ids| ensures ids[i] <= ids[|ids| - 1] {
    }
  }

  /**
   With any mix of errors, the handler gets each returned update once, in the order of the IDs, and
   the next request asks from just after the last update handled.
   */
  lemma {:induction false} HandledOnceInOrder(replies: seq<Reply>)
    requires InOrder(replies)
    ensures InStep(Handled(replies), Offset(replies))
  {
    if replies == [] {
    } else {
      var n := |replies| - 1;
      InOrderPrefix(replies, n);
      HandledOnceInOrder(replies[..n]);
      assert replies == replies[..n] + [replies[n]];
      OneMoreReply(replies[..n], replies[n]);
      if replies[n].Updates? {
        BatchInStep(Handled(replies[..n]), Offset(replies[..n]), replies[n].ids);
      }
    }
  }

  // ---- A server that returns the earliest unconfirmed updates ----------------------------------

  /** The updates that arrived with an ID of at least `offset`. */
  function Pending(arrived: seq<UpdateId>, offset: int): seq<UpdateId> {
    if arrived == [] then []
    else
      var n := |arrived| - 1;
      Pending(arrived[..n], offset) + if arrived[n] >= offset then [arrived[n]] else []
  }

  /** One request: all updates that had arrived by then, and the reply. */
  datatype Round = Round(arrived: seq<UpdateId>, reply: Reply)

  function Replies(rounds: seq<Round>): seq<Reply> {
    seq(|rounds|, i requires 0 <= i < |rounds| => rounds[i].reply)
  }

  /** Updates arrive with increasing positive IDs; a successful reply is a first part of the pending ones. */
  ghost predicate EarliestFirst(rounds: seq<Round>) {
    && (forall n :: 0 <= n < |rounds| ==> Ascending(rounds[n].arrived) && AtLeast(rounds[n].arrived, 0))
    && (forall n :: 0 < n < |rounds| ==> rounds[n - 1].arrived <= rounds[n].arrived)
    && (forall n :: 0 <= n < |rounds| && rounds[n].reply.Updates? ==>
          rounds[n].reply.ids <= Pending(rounds[n].arrived, Offset(Replies(rounds)[..n])))
  }

  /** The offset after the first `k` of the arrived updates. */
  function After(arrived: seq<UpdateId>, k: nat): int
    requires k <= |arrived|
  {
    if k == 0 then 0 else arrived[k - 1] + 1
  }

  /** The updates from an index on are exactly those not below the offset at that index. */
  lemma AtIndex(arrived: seq<UpdateId>, k: nat, i: nat)
    requires Ascending(arrived) && AtLeast(arrived, 0) && k <= |arrived| && i < |arrived|
    ensures arrived[i] >= After(arrived, k) <==> i >= k
  {
    if k > 0 && i >= k {
      assert arrived[k - 1] < arrived[i];
    }
    if k > 0 && i < k - 1 {
      assert arrived[i] < arrived[k - 1];
    }
  }

  lemma {:induction false} PendingIsSuffix(arrived: seq<UpdateId>, k: nat, n: nat)
    requires Ascending(arrived) && AtLeast(arrived, 0) && k <= |arrived| && n <= |arrived|
    ensures Pending(arrived[..n], After(arrived, k)) == if k <= n then arrived[k..n] else []
  {
    if n == 0 {
    } else {
      assert arrived[..n][..n - 1] == arrived[..n - 1];
      PendingIsSuffix(arrived, k, n - 1);
      AtIndex(arrived, k, n - 1);
      if k < n {
        assert arrived[k..n - 1] + [arrived[n - 1]] == arrived[k..n];
      }
    }
  }

  lemma AllPending(arrived: seq<UpdateId>, k: nat)
    requires Ascending(arrived) && AtLeast(arrived, 0) && k <= |arrived|
    ensures Pending(arrived, After(arrived, k)) == arrived[k..]
  {
    PendingIsSuffix(arrived, k, |arrived|);
    WholeSlices(arrived, k);
  }

  lemma WholeSlices(xs: seq<UpdateId>, k: nat)
    requires k <= |xs|
    ensures xs[..|xs|] == xs && xs[k..|xs|] == xs[k..] && xs[..k] + xs[k..] == xs
  {
  }

  lemma SlicesJoin(xs: seq<UpdateId>, k: nat, ids: seq<UpdateId>)
    requires k <= |xs| && ids <= xs[k..]
    ensures k + |ids| <= |xs| && xs[..k] + ids == xs[..k + |ids|]
    ensures forall i :: 0 <= i < |ids| ==> ids[i] == xs[k + i]
  {
  }

  lemma SliceAscending(xs: seq<UpdateId>, k: nat, ids: seq<UpdateId>)
    requires Ascending(xs) && k + |ids| <= |xs| && forall i :: 0 <= i < |ids| ==> ids[i] == xs[k + i]
    ensures Ascending(ids)
  {
    forall i, j | 0 <= i < j < |ids| ensures ids[i] < ids[j] {
      assert xs[k + i] < xs[k + j];
    }
  }

  /** A first part of the pending updates continues where the handled ones end. */
  lemma PendingContinues(arrived: seq<UpdateId>, k: nat, ids: seq<UpdateId>)
    requires Ascending(arrived) && AtLeast(arrived, 0) && k <= |arrived|
    requires ids <= Pending(arrived, After(arrived, k))
    ensures k + |ids| <= |arrived| && arrived[..k] + ids == arrived[..k + |ids|]
    ensures forall i :: 0 <= i < |ids| ==> ids[i] == arrived[k + i]
  {
    AllPending(arrived, k);
    SlicesJoin(arrived, k, ids);
  }

  lemma AdvanceOverSlice(arrived: seq<UpdateId>, k: nat, ids: seq<UpdateId>)
    requires Ascending(arrived) && AtLeast(arrived, 0) && k + |ids| <= |arrived|
    requires forall i :: 0 <= i < |ids| ==> ids[i] == arrived[k + i]
    ensures Advance(After(arrived, k), ids) == After(arrived, k + |ids|)
  {
    SliceAscending(arrived, k, ids);
    forall i | 0 <= i < |ids| ensures ids[i] >= After(arrived, k) {
      AtIndex(arrived, k, k + i);
    }
    AdvanceIsLast(After(arrived, k), ids);
  }

  lemma RoundsPrefix(rounds: seq<Round>, k: nat)
    requires EarliestFirst(rounds) && k <= |rounds|
    ensures EarliestFirst(rounds[..k])
  {
    forall n | 0 <= n < k ensures Replies(rounds[..k])[..n] == Replies(rounds)[..n] && rounds[..k][n] == rounds[n] {
    }
  }

  lemma PrefixGrows(h: seq<UpdateId>, xs: seq<UpdateId>, ys: seq<UpdateId>)
    requires h <= xs && xs <= ys
    ensures h <= ys && ys[..|h|] == h && After(ys, |h|) == After(xs, |h|)
  {
  }

  lemma RoundHandled(arrived: seq<UpdateId>, h: seq<UpdateId>, r: Reply)
    requires Ascending(arrived) && AtLeast(arrived, 0) && h <= arrived
    requires r.Updates? ==> r.ids <= Pending(arrived, After(arrived, |h|))
    ensures var now := if r.Updates? then h + r.ids else h;
      now <= arrived
      && (if r.Updates? then Advance(After(arrived, |h|), r.ids) else After(arrived, |h|)) == After(arrived, |now|)
  {
    if r.Updates? {
      PendingContinues(arrived, |h|, r.ids);
      AdvanceOverSlice(arrived, |h|, r.ids);
      assert h == arrived[..|h|];
    }
  }

  /** After any number of rounds the handled updates are a first part of the arrived ones. */
  lemma {:induction false} HandledIsPrefix(rounds: seq<Round>)
    requires EarliestFirst(rounds) && rounds != []
    ensures var last, handled := rounds[|rounds| - 1], Handled(Replies(rounds));
      handled <= last.arrived && Offset(Replies(rounds)) == After(last.arrived, |handled|)
    decreases |rounds|, 1
  {
    var n := |rounds| - 1;
    var h := BeforeLast(rounds);
    OneMoreReply(Replies(rounds)[..n], rounds[n].reply);
    RoundHandled(rounds[n].arrived, h, rounds[n].reply);
  }

  /** The handled updates before the last round, against the updates that had arrived by then. */
  lemma BeforeLast(rounds: seq<Round>) returns (h: seq<UpdateId>)
    requires EarliestFirst(rounds) && rounds != []
    ensures var n := |rounds| - 1;
      && Replies(rounds) == Replies(rounds)[..n] + [rounds[n].reply]
      && h == Handled(Replies(rounds)[..n]) && h <= rounds[n].arrived && h == rounds[n].arrived[..|h|]
      && Offset(Replies(rounds)[..n]) == After(rounds[n].arrived, |h|)
    decreases |rounds|, 0
  {
    var n := |rounds| - 1;
    assert Replies(rounds)[..n] == Replies(rounds[..n]);
    h := Handled(Replies(rounds)[..n]);
    if n > 0 {
      RoundsPrefix(rounds, n);
      HandledIsPrefix(rounds[..n]);
      PrefixGrows(h, rounds[n - 1].arrived, rounds[n].arrived);
    }
  }

  /**
   Nothing is lost and nothing is confirmed too early: after any number of rounds, of the arrived
   updates exactly the handled ones are below the offset of the next request.  When the last reply
   held all pending updates, every arrived update is handled.
   */
  lemma NothingLost(rounds: seq<Round>)
    requires EarliestFirst(rounds) && rounds != []
    ensures
      var last, handled := rounds[|rounds| - 1], Handled(Replies(rounds));
      && handled <= last.arrived
      && (forall i :: 0 <= i < |last.arrived| ==> (last.arrived[i] < Offset(Replies(rounds)) <==> i < |handled|))
      && (last.reply == Updates(Pending(last.arrived, Offset(Replies(rounds)[..|rounds| - 1])))
          ==> handled == last.arrived)
  {
    var last, handled := rounds[|rounds| - 1], Handled(Replies(rounds));
    HandledIsPrefix(rounds);
    forall i | 0 <= i < |last.arrived|
      ensures last.arrived[i] < Offset(Replies(rounds)) <==> i < |handled|
    {
      AtIndex(last.arrived, |handled|, i);
    }
    if last.reply == Updates(Pending(last.arrived, Offset(Replies(rounds)[..|rounds| - 1]))) {
      AllPendingHandled(rounds);
    }
  }

  lemma LastReplyHandled(rounds: seq<Round>, h: seq<UpdateId>, ids: seq<UpdateId>)
    requires rounds != [] && rounds[|rounds| - 1].reply == Updates(ids)
    requires Handled(Replies(rounds)[..|rounds| - 1]) == h
    ensures Handled(Replies(rounds)) == h + ids
  {
    var n := |rounds| - 1;
    assert Replies(rounds) == Replies(rounds)[..n] + [Updates(ids)];
    OneMoreReply(Replies(rounds)[..n], Updates(ids));
  }

  lemma AllPendingHandled(rounds: seq<Round>)
    requires EarliestFirst(rounds) && rounds != []
    requires var last := rounds[|rounds| - 1];
      last.reply == Updates(Pending(last.arrived, Offset(Replies(rounds)[..|rounds| - 1])))
    ensures Handled(Replies(rounds)) == rounds[|rounds| - 1].arrived
  {
    var n := |rounds| - 1;
    var h := BeforeLast(rounds);
    LastReplyHandled(rounds, h, rounds[n].reply.ids);
    AllPending(rounds[n].arrived, |h|);
    WholeSlices(rounds[n].arrived, |h|);
  }
}
