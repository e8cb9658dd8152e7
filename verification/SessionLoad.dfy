/** `session/load` as a diagnosis (session-load.ts): an agent's replay of its history, of which only
    what DeFlow has never appended may be appended. */
module SessionLoad {
  import opened Lines

  const MAX_LOAD_REPLAY_NOTIFICATIONS := 1_000

  /** A notification that is appended, and its position in DeFlow's own log. */
  datatype Replayed<N> = Replayed(ordinal: nat, notification: N)

  datatype Deduped<N> = Deduped(novel: seq<Replayed<N>>, discarded: nat)

  function Ids<N>(idOf: N -> string, novel: seq<Replayed<N>>): seq<string> {
    if novel == [] then [] else Ids(idOf, Init(novel)) + [idOf(Last(novel).notification)]
  }

  /** The first `n` replayed notifications: dropped where their position or their id is known. */
  function Fresh<N>(known: seq<string>, replayed: seq<N>, idOf: N -> string, n: nat): seq<Replayed<N>>
    requires n <= |replayed|
  {
    if n == 0 then []
    else
      var novel, id := Fresh(known, replayed, idOf, n - 1), idOf(replayed[n - 1]);
      if n - 1 < |known| || id in known || id in Ids(idOf, novel) then novel
      else novel + [Replayed(|known| + |novel|, replayed[n - 1])]
  }

  lemma {:induction false} IdsPush<N>(idOf: N -> string, novel: seq<Replayed<N>>, r: Replayed<N>)
    ensures Ids(idOf, novel + [r]) == Ids(idOf, novel) + [idOf(r.notification)]
  {
    assert Init(novel + [r]) == novel;
  }

  function IdSet(known: seq<string>, ids: seq<string>): set<string> {
    (set id | id in known) + (set id | id in ids)
  }

  lemma {:induction false} IdSetPush<N>(known: seq<string>, idOf: N -> string, novel: seq<Replayed<N>>, r: Replayed<N>)
    ensures IdSet(known, Ids(idOf, novel + [r])) == IdSet(known, Ids(idOf, novel)) + {idOf(r.notification)}
  {
    IdsPush(idOf, novel, r);
  }

  method DedupeReplayedNotifications<N>(known: seq<string>, replayed: seq<N>, idOf: N -> string)
    returns (result: Deduped<N>)
    ensures result.novel == Fresh(known, replayed, idOf, |replayed|)
    ensures |result.novel| + result.discarded == |replayed|
  {
    var seen := set id | id in known;
    var novel: seq<Replayed<N>> := [];
    assert seen == IdSet(known, Ids(idOf, novel));
    for index := 0 to |replayed|
      invariant novel == Fresh(known, replayed, idOf, index) && |novel| <= index
      invariant seen == IdSet(known, Ids(idOf, novel))
    {
      var id := idOf(replayed[index]);
      if index < |known| || id in seen { continue; }
      IdSetPush(known, idOf, novel, Replayed(|known| + |novel|, replayed[index]));
      seen := seen + {id};
      novel := novel + [Replayed(|known| + |novel|, replayed[index])];
    }
    return Deduped(novel, |replayed| - |novel|);
  }

  /** Fresh notifications are numbered on from the end of the log, their ids are known to nobody and
      differ from each other. */
  lemma {:induction false} FreshIsNew<N>(known: seq<string>, replayed: seq<N>, idOf: N -> string, n: nat)
    requires n <= |replayed|
    ensures var novel := Fresh(known, replayed, idOf, n); var ids := Ids(idOf, novel);
            && |ids| == |novel| <= n
            && (forall k | 0 <= k < |novel| :: novel[k].ordinal == |known| + k && ids[k] == idOf(novel[k].notification))
            && (forall k | 0 <= k < |ids| :: ids[k] !in known)
            && (forall j, k | 0 <= j < k < |ids| :: ids[j] != ids[k])
  {
    if n > 0 {
      FreshIsNew(known, replayed, idOf, n - 1);
      var before := Fresh(known, replayed, idOf, n - 1);
      IdsPush(idOf, before, Replayed(|known| + |before|, replayed[n - 1]));
    }
  }

  /** The log after the novel ones are appended. */
  function Appended<N>(known: seq<string>, replayed: seq<N>, idOf: N -> string): seq<string> {
    known + Ids(idOf, Fresh(known, replayed, idOf, |replayed|))
  }

  lemma {:induction false} BeyondIsKnown<N>(known: seq<string>, replayed: seq<N>, idOf: N -> string, n: nat, k: nat)
    requires k < n <= |replayed| && |known| <= k
    ensures idOf(replayed[k]) in known + Ids(idOf, Fresh(known, replayed, idOf, n))
    decreases n
  {
    var before := Fresh(known, replayed, idOf, n - 1);
    IdsPush(idOf, before, Replayed(|known| + |before|, replayed[n - 1]));
    if k < n - 1 { BeyondIsKnown(known, replayed, idOf, n - 1, k); }
  }

  lemma {:induction false} NothingFresh<N>(known: seq<string>, replayed: seq<N>, idOf: N -> string, n: nat)
    requires n <= |replayed|
    requires forall k | |known| <= k < n :: idOf(replayed[k]) in known
    ensures Fresh(known, replayed, idOf, n) == []
  {
    if n > 0 { NothingFresh(known, replayed, idOf, n - 1); }
  }

  /** Loading the same replay again, with what was novel appended, appends nothing. */
  lemma {:induction false} ReloadIsIdempotent<N>(known: seq<string>, replayed: seq<N>, idOf: N -> string)
    ensures Fresh(Appended(known, replayed, idOf), replayed, idOf, |replayed|) == []
  {
    var more := Appended(known, replayed, idOf);
    forall k | |more| <= k < |replayed| ensures idOf(replayed[k]) in more {
      BeyondIsKnown(known, replayed, idOf, |replayed|, k);
    }
    NothingFresh(more, replayed, idOf, |replayed|);
  }

  predicate ComesBeyond<N>(known: seq<string>, replayed: seq<N>, idOf: N -> string, n: nat, id: string)
    requires n <= |replayed|
  {
    exists m | |known| <= m < n :: idOf(replayed[m]) == id
  }

  /** What is appended stands beyond the known places. */
  lemma {:induction false} FreshComesBeyond<N>(known: seq<string>, replayed: seq<N>, idOf: N -> string, n: nat,
        id: string)
    requires n <= |replayed| && id in Ids(idOf, Fresh(known, replayed, idOf, n))
    ensures ComesBeyond(known, replayed, idOf, n, id)
  {
    if n > 0 {
      var before := Fresh(known, replayed, idOf, n - 1);
      IdsPush(idOf, before, Replayed(|known| + |before|, replayed[n - 1]));
      if id in Ids(idOf, before) { FreshComesBeyond(known, replayed, idOf, n - 1, id); }
    }
  }

  /** Everything replayed is in the log afterwards exactly when each notification that stands in a known
      place is known by its id, or comes again beyond those places: the place alone discards, whatever
      stands in it. */
  lemma {:induction false} WhatIsKept<N>(known: seq<string>, replayed: seq<N>, idOf: N -> string)
    ensures (forall k | 0 <= k < |replayed| :: idOf(replayed[k]) in Appended(known, replayed, idOf)) <==>
            (forall k | 0 <= k < |replayed| && k < |known| ::
               idOf(replayed[k]) in known || ComesBeyond(known, replayed, idOf, |replayed|, idOf(replayed[k])))
  {
    var more, n := Appended(known, replayed, idOf), |replayed|;
    forall k | |known| <= k < n ensures idOf(replayed[k]) in more { BeyondIsKnown(known, replayed, idOf, n, k); }
    forall k | 0 <= k < n && k < |known|
      ensures idOf(replayed[k]) in more
              <==> idOf(replayed[k]) in known || ComesBeyond(known, replayed, idOf, n, idOf(replayed[k]))
    {
      if idOf(replayed[k]) in Ids(idOf, Fresh(known, replayed, idOf, n)) {
        FreshComesBeyond(known, replayed, idOf, n, idOf(replayed[k]));
      }
    }
  }

  /** A notification that is lost: a history that lost its first entry is replayed one place early. */
  lemma {:induction false} PlaceAloneDiscards()
    ensures Fresh(["a", "b"], ["b", "c"], (n: string) => n, 2) == []
    ensures "c" !in Appended(["a", "b"], ["b", "c"], (n: string) => n)
  {
    NothingFresh(["a", "b"], ["b", "c"], (n: string) => n, 2);
    assert "c"[0] != "a"[0] && "c"[0] != "b"[0];
  }

  // ---------- The diagnosis ----------

  datatype Row<N> = Chunk(notification: N) | Noted(replayed: nat, discarded: nat, appended: nat)

  datatype Outcome = Flooded | Loaded(appended: nat, discarded: nat)

  predicate LoadWouldFlood(recorded: nat) { recorded > MAX_LOAD_REPLAY_NOTIFICATIONS }

  /** `load` is what the agent would replay. A session over the cap is refused before it is asked, and
      nothing is appended; else the novel notifications are, in order, and then one row that says how
      many of the replay were new. */
  method DiagnoseSessionLoad<N>(known: seq<string>, load: seq<N>, idOf: N -> string)
    returns (outcome: Outcome, rows: seq<Row<N>>)
    ensures |known| > 1_000 ==> outcome == Flooded && rows == []
    ensures |known| <= 1_000 ==>
              var novel := Fresh(known, load, idOf, |load|);
              && |novel| <= |load| && outcome == Loaded(|novel|, |load| - |novel|) && |rows| == |novel| + 1
              && (forall k | 0 <= k < |novel| :: rows[k] == Chunk(novel[k].notification))
              && rows[|novel|] == Noted(|load|, |load| - |novel|, |novel|)
  {
    if LoadWouldFlood(|known|) { return Flooded, []; }
    var result := DedupeReplayedNotifications(known, load, idOf);
    rows := [];
    for n := 0 to |result.novel|
      invariant |rows| == n && forall k | 0 <= k < n :: rows[k] == Chunk(result.novel[k].notification)
    {
      rows := rows + [Chunk(result.novel[n].notification)];
    }
    rows := rows + [Noted(|load|, result.discarded, |result.novel|)];
    return Loaded(|result.novel|, result.discarded), rows;
  }
}
