/** Two updates of one peer connection that run into each other (sfu/peer_server.go): the
    initial one of its peer server, which holds no lock, and a visit by a signaling pass. Each
    drops dead tracks, then collects what is already sent, then adds track by track. */
module Overlaps {
  import opened Base
  import opened Tracks

  datatype Updater = Initial | Visit

  /** What happens to the connection, in any order of the two updaters' steps. A turn of the
      loop over the tracks that fails ends its updater, which meets no track any more. `slot`
      is an emptied sender that AddTrack may take again. The index does not change. */
  datatype Event =
    | Clean(i: nat, fails: bool)
    | Collect(w: Updater)
    | Turn(w: Updater, id: TrackId, slot: nat)

  datatype Duo = Duo(senders: Senders, already: map<Updater, set<TrackId>>)

  function Do(d: Duo, e: Event, size: nat, user: UserId, index: SliceIndex): Duo {
    match e
    case Clean(i, fails) =>
      if i < |d.senders|
      then d.(senders := d.senders[i := CleanSender(d.senders[i], Live(d.senders[i], index), fails)])
      else d
    case Collect(w) => d.(already := d.already[w := AlreadySent(d.senders, index)])
    case Turn(w, id, slot) =>
      if w in d.already && id !in d.already[w] && id in Expected(size, user, index)
      then d.(senders := PlaceTrack(d.senders, id, map[id := slot]))
      else d
  }

  function DoAll(d: Duo, events: seq<Event>, size: nat, user: UserId, index: SliceIndex): Duo {
    if events == [] then d
    else Do(DoAll(d, events[..|events| - 1], size, user, index), events[|events| - 1], size, user, index)
  }

  /** Each updater collects once, before its turns. */
  ghost predicate CollectsAt(events: seq<Event>, w: Updater, c: nat) {
    c < |events| && events[c] == Collect(w)
    && (forall k :: 0 <= k < |events| && events[k] == Collect(w) ==> k == c)
    && forall k :: 0 <= k < |events| && events[k].Turn? && events[k].w == w ==> c < k
  }

  /** The loop meets each track once: it meets this one at event t, or not at all, in which
      case t is the number of events. */
  ghost predicate MeetsAt(events: seq<Event>, w: Updater, id: TrackId, t: nat) {
    t <= |events|
    && (t < |events| ==> events[t].Turn? && events[t].w == w && events[t].id == id)
    && forall k :: 0 <= k < |events| && events[k].Turn? && events[k].w == w && events[k].id == id ==> k == t
  }

  /** How many senders send a track. */
  function Copies(senders: Senders, id: TrackId): nat {
    Count(senders, (x: Option<TrackId>) => x == Some(id))
  }

  lemma PlaceCopies(senders: Senders, id: TrackId, slots: map<TrackId, nat>, x: TrackId)
    ensures Copies(PlaceTrack(senders, id, slots), x) == Copies(senders, x) + if x == id then 1 else 0
  {
    if id in slots && slots[id] < |senders| && senders[slots[id]].None? {
      CountUpdate(senders, slots[id], Some(id), (y: Option<TrackId>) => y == Some(x));
    } else {
      CountSnoc(senders, Some(id), (y: Option<TrackId>) => y == Some(x));
    }
  }

  lemma CleanCopies(senders: Senders, i: nat, fails: bool, index: SliceIndex, x: TrackId)
    requires i < |senders| && x in index
    ensures Copies(senders[i := CleanSender(senders[i], Live(senders[i], index), fails)], x) == Copies(senders, x)
  {
    CountUpdate(senders, i, CleanSender(senders[i], Live(senders[i], index), fails),
                (y: Option<TrackId>) => y == Some(x));
  }

  lemma {:induction false} SentIff(senders: Senders, id: TrackId)
    ensures id in Sent(senders) <==> Copies(senders, id) > 0
    decreases |senders|
  {
    if senders != [] {
      var front, x := senders[..|senders| - 1], senders[|senders| - 1];
      SentIff(front, id);
      CountSnoc(front, x, (y: Option<TrackId>) => y == Some(id));
      assert senders == front + [x];
      if id in Sent(front) {
        var i :| 0 <= i < |front| && front[i] == Some(id);
        assert senders[i] == Some(id);
      }
      if id in Sent(senders) {
        var i :| 0 <= i < |senders| && senders[i] == Some(id);
        assert i < |front| ==> front[i] == Some(id);
      }
    }
  }

  /** Where in the events each updater collects, and where it meets a track. */
  datatype Spots = Spots(initialCollects: nat, visitCollects: nat, initialMeets: nat, visitMeets: nat)

  ghost predicate Positions(events: seq<Event>, id: TrackId, at: Spots) {
    CollectsAt(events, Initial, at.initialCollects) && CollectsAt(events, Visit, at.visitCollects)
    && MeetsAt(events, Initial, id, at.initialMeets) && MeetsAt(events, Visit, id, at.visitMeets)
  }

  /** The connection as far as one track goes: its copies, and whether each updater that has
      collected found it already sent. */
  datatype View = View(copies: nat, initial: Option<bool>, visit: Option<bool>)

  function Knows(d: Duo, w: Updater, id: TrackId): Option<bool> {
    if w in d.already then Some(id in d.already[w]) else None
  }

  function ViewOf(d: Duo, id: TrackId): View {
    View(Copies(d.senders, id), Knows(d, Initial, id), Knows(d, Visit, id))
  }

  function ViewStep(v: View, e: Event, id: TrackId): View {
    match e
    case Clean(_, _) => v
    case Collect(w) => if w == Initial then v.(initial := Some(v.copies > 0)) else v.(visit := Some(v.copies > 0))
    case Turn(w, x, _) =>
      if x == id && (if w == Initial then v.initial else v.visit) == Some(false) then v.(copies := v.copies + 1) else v
  }

  lemma ViewDo(d: Duo, e: Event, size: nat, user: UserId, index: SliceIndex, id: TrackId)
    requires id in Expected(size, user, index)
    ensures ViewOf(Do(d, e, size, user, index), id) == ViewStep(ViewOf(d, id), e, id)
  {
    match e
    case Clean(i, fails) =>
      if i < |d.senders| {
        CleanCopies(d.senders, i, fails, index, id);
      }
    case Collect(w) => SentIff(d.senders, id);
    case Turn(w, x, slot) => PlaceCopies(d.senders, x, map[x := slot], id);
  }

  /** After n events: an updater that has collected knows the track if the other one's turn
      came before, and an updater whose turn has come has added it unless it knew it. */
  function ViewAfter(n: nat, at: Spots): View {
    View(One(at.initialMeets < n && !(at.visitMeets < at.initialCollects))
         + One(at.visitMeets < n && !(at.initialMeets < at.visitCollects)),
         if at.initialCollects < n then Some(at.visitMeets < at.initialCollects) else None,
         if at.visitCollects < n then Some(at.initialMeets < at.visitCollects) else None)
  }

  lemma ViewNext(events: seq<Event>, n: nat, id: TrackId, at: Spots)
    requires n < |events| && Positions(events, id, at)
    ensures ViewStep(ViewAfter(n, at), events[n], id) == ViewAfter(n + 1, at)
  {
  }

  lemma DoAllNext(start: Duo, events: seq<Event>, n: nat, size: nat, user: UserId, index: SliceIndex)
    requires n < |events|
    ensures DoAll(start, events[..n + 1], size, user, index)
         == Do(DoAll(start, events[..n], size, user, index), events[n], size, user, index)
  {
    assert events[..n + 1][..n] == events[..n] && events[..n + 1][n] == events[n];
  }

  lemma TrackingNext(
      d: Duo, events: seq<Event>, n: nat, size: nat, user: UserId, index: SliceIndex, id: TrackId, at: Spots)
    requires n < |events| && Positions(events, id, at) && id in Expected(size, user, index)
    requires ViewOf(d, id) == ViewAfter(n, at)
    ensures ViewOf(Do(d, events[n], size, user, index), id) == ViewAfter(n + 1, at)
  {
    ViewDo(d, events[n], size, user, index, id);
    ViewNext(events, n, id, at);
  }

  /** What every event keeps, all events keep. */
  lemma {:induction false} AllKeep(
      keeps: (Duo, nat) -> bool, start: Duo, events: seq<Event>, n: nat, size: nat, user: UserId, index: SliceIndex)
    requires n <= |events| && keeps(start, 0)
    requires forall d: Duo, k: nat :: k < |events| && keeps(d, k) ==> keeps(Do(d, events[k], size, user, index), k + 1)
    ensures keeps(DoAll(start, events[..n], size, user, index), n)
    decreases n
  {
    if n > 0 {
      AllKeep(keeps, start, events, n - 1, size, user, index);
      DoAllNext(start, events, n - 1, size, user, index);
    }
  }

  lemma {:induction false} Tracking(
      start: Duo, events: seq<Event>, n: nat, size: nat, user: UserId, index: SliceIndex, id: TrackId, at: Spots)
    requires n <= |events| && Positions(events, id, at)
    requires start.already == map[] && Copies(start.senders, id) == 0
    requires id in Expected(size, user, index)
    ensures ViewOf(DoAll(start, events[..n], size, user, index), id) == ViewAfter(n, at)
  {
    var keeps := (d: Duo, k: nat) => ViewOf(d, id) == ViewAfter(k, at);
    forall d: Duo, k: nat | k < |events| && keeps(d, k) ensures keeps(Do(d, events[k], size, user, index), k + 1) {
      TrackingNext(d, events, k, size, user, index, id, at);
    }
    AllKeep(keeps, start, events, n, size, user, index);
  }

  /** A track the user is not to be sent is never added, and one that was sent from the start
      is not added again. */
  ghost predicate Untouched(d: Duo, id: TrackId, expected: set<TrackId>, index: SliceIndex, before: nat) {
    Copies(d.senders, id) <= before
    && (id in expected && before > 0 ==>
          Copies(d.senders, id) == before && forall w :: w in d.already ==> id in d.already[w])
  }

  lemma {:induction false} StaysUntouched(
      start: Duo, events: seq<Event>, size: nat, user: UserId, index: SliceIndex, id: TrackId)
    requires start.already == map[]
    requires id in Expected(size, user, index) ==> Copies(start.senders, id) > 0
    ensures Untouched(DoAll(start, events, size, user, index), id, Expected(size, user, index), index,
                      Copies(start.senders, id))
    decreases |events|
  {
    if events != [] {
      var front, e := events[..|events| - 1], events[|events| - 1];
      StaysUntouched(start, front, size, user, index, id);
      EventUntouched(DoAll(start, front, size, user, index), e, size, user, index, id, Copies(start.senders, id));
    }
  }

  lemma EventUntouched(
      d: Duo, e: Event, size: nat, user: UserId, index: SliceIndex, id: TrackId, before: nat)
    requires Untouched(d, id, Expected(size, user, index), index, before)
    requires id in Expected(size, user, index) ==> before > 0
    ensures Untouched(Do(d, e, size, user, index), id, Expected(size, user, index), index, before)
  {
    match e
    case Clean(i, fails) =>
      if i < |d.senders| {
        CountUpdate(d.senders, i, CleanSender(d.senders[i], Live(d.senders[i], index), fails),
                    (y: Option<TrackId>) => y == Some(id));
      }
    case Collect(w) => SentIff(d.senders, id);
    case Turn(w, x, slot) => PlaceCopies(d.senders, x, map[x := slot], id);
  }

  lemma {:induction false} AtMostOneCopy(senders: Senders, id: TrackId)
    requires SentOnce(senders)
    ensures Copies(senders, id) <= 1
    decreases |senders|
  {
    if senders != [] {
      var front, x := senders[..|senders| - 1], senders[|senders| - 1];
      assert forall i :: 0 <= i < |front| ==> front[i] == senders[i];
      AtMostOneCopy(front, id);
      SentIff(front, id);
      forall i | 0 <= i < |front| && x == Some(id) ensures front[i] != Some(id) {
        assert senders[i] == front[i] && (senders[i].Some? ==> senders[i] != senders[|senders| - 1]);
      }
    }
  }

  lemma {:induction false} TwoCopies(senders: Senders, i: nat, j: nat, id: TrackId)
    requires i < j < |senders| && senders[i] == senders[j] == Some(id)
    ensures Copies(senders, id) >= 2
    decreases |senders|
  {
    var n := |senders| - 1;
    var front := senders[..n];
    if j < n {
      TwoCopies(front, i, j, id);
    } else {
      assert front[i] == Some(id);
      SentIff(front, id);
    }
  }

  lemma OnceIffOneCopy(senders: Senders)
    ensures SentOnce(senders) <==> forall id :: Copies(senders, id) <= 1
  {
    if SentOnce(senders) {
      forall id ensures Copies(senders, id) <= 1 {
        AtMostOneCopy(senders, id);
      }
    } else {
      var i, j :| 0 <= i < j < |senders| && senders[i].Some? && senders[j].Some? && senders[i] == senders[j];
      TwoCopies(senders, i, j, senders[i].value);
    }
  }

  /** Both updaters collect before the other's turn on the track. */
  predicate Crossed(events: seq<Event>, at: Spots) {
    at.initialMeets < |events| && at.visitMeets < |events|
    && at.initialCollects < at.visitMeets && at.visitCollects < at.initialMeets
  }

  /** A track the user should be sent, and was not sent before, ends up sent twice exactly if
      both snapshots precede both additions. Otherwise it is sent once if any of them met
      it. */
  lemma SentTwiceIff(
      senders: Senders, events: seq<Event>, size: nat, user: UserId, index: SliceIndex, id: TrackId, at: Spots)
    requires Positions(events, id, at)
    requires id in Expected(size, user, index) && id !in Sent(senders)
    ensures var copies := Copies(DoAll(Duo(senders, map[]), events, size, user, index).senders, id);
            (copies == 2 <==> Crossed(events, at))
            && (copies >= 1 <==> at.initialMeets < |events| || at.visitMeets < |events|)
            && copies <= 2
  {
    SentIff(senders, id);
    Tracking(Duo(senders, map[]), events, |events|, size, user, index, id, at);
    assert events[..|events|] == events;
  }

  /** However the two updates of a connection that sends no track twice run into each other,
      it still sends none twice exactly if they cross on none of the tracks to be added. */
  lemma {:induction false} SentOnceIff(
      senders: Senders, events: seq<Event>, size: nat, user: UserId, index: SliceIndex, at: TrackId -> Spots)
    requires SentOnce(senders)
    requires forall id :: id in index ==> Positions(events, id, at(id))
    ensures SentOnce(DoAll(Duo(senders, map[]), events, size, user, index).senders)
       <==> forall id :: id in Expected(size, user, index) && id !in Sent(senders) ==> !Crossed(events, at(id))
  {
    var end := DoAll(Duo(senders, map[]), events, size, user, index).senders;
    OnceIffOneCopy(end);
    forall id
      ensures Copies(end, id) <= 1
         <==> (id in Expected(size, user, index) && id !in Sent(senders) ==> !Crossed(events, at(id)))
    {
      if id in Expected(size, user, index) && id !in Sent(senders) {
        SentTwiceIff(senders, events, size, user, index, id, at(id));
      } else {
        SentIff(senders, id);
        AtMostOneCopy(senders, id);
        StaysUntouched(Duo(senders, map[]), events, size, user, index, id);
      }
    }
  }

  /** An overlap that sends a track twice. */
  lemma SentTwiceHappens(user: UserId, id: TrackId, slice: Slice)
    requires slice.owner != user
    ensures var events := [Collect(Initial), Collect(Visit), Turn(Initial, id, 0), Turn(Visit, id, 0)];
            !SentOnce(DoAll(Duo([], map[]), events, 2, user, map[id := slice]).senders)
  {
    var events := [Collect(Initial), Collect(Visit), Turn(Initial, id, 0), Turn(Visit, id, 0)];
    assert Positions(events, id, Spots(0, 1, 2, 3));
    SentTwiceIff([], events, 2, user, map[id := slice], id, Spots(0, 1, 2, 3));
    OnceIffOneCopy(DoAll(Duo([], map[]), events, 2, user, map[id := slice]).senders);
  }
}
