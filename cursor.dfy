/** Discarding the updates that arrived while the bridge was down
    (plugin.py, `_telegram_discard_previous_updates`). */
module Cursor {
  import opened Optional
  import opened Telegram

  /** The feed delivers updates in strictly increasing id order. */
  predicate IdsIncreasing(updates: seq<Update>) {
    forall a, b :: 0 <= a < b < |updates| ==> updates[a].id < updates[b].id
  }

  /** The id of the last update, None for an empty feed. */
  function LastUpdateId(updates: seq<Update>): (cursor: Option<int>)
    ensures cursor.None? <==> updates == []
    ensures cursor.Some? ==> cursor.value == updates[|updates| - 1].id
    ensures IdsIncreasing(updates) && cursor.Some? ==>
              forall i :: 0 <= i < |updates| - 1 ==> updates[i].id < cursor.value
  {
    if updates == [] then None else Some(updates[|updates| - 1].id)
  }

  /** The drain loop: walk the whole feed, keeping the id of each update in turn. */
  method LastSeenUpdate(updates: seq<Update>) returns (cursor: Option<int>)
    ensures cursor == LastUpdateId(updates)
  {
    cursor := None;
    var i := 0;
    while i < |updates|
      invariant 0 <= i <= |updates|
      invariant cursor == LastUpdateId(updates[..i])
    {
      cursor := Some(updates[i].id);
      i := i + 1;
    }
    assert updates[..i] == updates;
  }

  /** What a fetch with `state` set to the cursor delivers, for a feed that keeps its
      promise to deliver only updates after the cursor. */
  function After(updates: seq<Update>, cursor: Option<int>): seq<Update>
    decreases |updates|
  {
    if updates == [] then []
    else (if cursor.None? || updates[0].id > cursor.value then [updates[0]] else [])
         + After(updates[1..], cursor)
  }

  /** Once drained, the stale updates are never delivered again: fetching after the
      drained cursor yields exactly the updates that arrived later. */
  lemma {:induction false} DrainedNotRedelivered(stale: seq<Update>, later: seq<Update>)
    requires IdsIncreasing(stale + later)
    ensures After(stale + later, LastUpdateId(stale)) == later
  {
    if stale == [] {
      assert stale + later == later;
      AfterNothing(later);
    } else {
      var all := stale + later;
      var n := |stale| - 1;
      var cursor := stale[n].id;
      forall i | 0 <= i < |stale| ensures stale[i].id <= cursor {
        assert all[i] == stale[i] && all[n] == stale[n];
      }
      forall i | 0 <= i < |later| ensures later[i].id > cursor {
        assert all[|stale| + i] == later[i] && all[n] == stale[n];
      }
      StaleSkipped(stale, later, cursor);
    }
  }

  lemma {:induction false} AfterNothing(updates: seq<Update>)
    ensures After(updates, None) == updates
    decreases |updates|
  {
    if updates != [] {
      AfterNothing(updates[1..]);
    }
  }

  lemma {:induction false} StaleSkipped(stale: seq<Update>, later: seq<Update>, cursor: int)
    requires forall i :: 0 <= i < |stale| ==> stale[i].id <= cursor
    requires forall i :: 0 <= i < |later| ==> later[i].id > cursor
    ensures After(stale + later, Some(cursor)) == later
    decreases |stale|
  {
    if stale == [] {
      assert stale + later == later;
      AfterLater(later, cursor);
    } else {
      assert (stale + later)[0] == stale[0];
      assert (stale + later)[1..] == stale[1..] + later;
      StaleSkipped(stale[1..], later, cursor);
    }
  }

  lemma {:induction false} AfterLater(later: seq<Update>, cursor: int)
    requires forall i :: 0 <= i < |later| ==> later[i].id > cursor
    ensures After(later, Some(cursor)) == later
    decreases |later|
  {
    if later != [] {
      AfterLater(later[1..], cursor);
    }
  }
}
