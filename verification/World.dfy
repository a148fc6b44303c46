/** The store of interactions with every interaction ever made (sfu/interaction_store.go):
    payloads are routed by their generated id, deletion is by id. */
module World {
  import opened Base
  import opened Payload
  import opened RoomSpec
  import opened RoomSystem

  /** The index, every room ever made, and the rooms whose deleted flag is set but whose call
      of the store's delete is still to come: nothing keeps joins out in between. */
  datatype Store = Store(index: map<string, nat>, rooms: seq<Sys>, erasing: set<nat>)

  datatype WorldStep =
    | ClientJoins(origin: string, raw: JoinPayload)
    | InRoom(r: nat, step: Step)
    | Erase(r: nat)

  ghost predicate CanDo(w: Store, step: WorldStep) {
    match step
    case ClientJoins(origin, raw) =>
      ReadJoin(origin, raw).Joined?
      && var jp := ReadJoin(origin, raw).jp;
         GenerateId(jp) in w.index ==>
           w.index[GenerateId(jp)] < |w.rooms| && CanWrite(w.rooms[w.index[GenerateId(jp)]].room)
    case InRoom(r, s) => r < |w.rooms| && !s.JoinUser? && Enabled(w.rooms[r], s)
    case Erase(r) => r < |w.rooms| && r in w.erasing
  }

  function NewSys(id: string, jp: JoinPayload): Sys {
    Sys(NewRoom(id, jp), [], [], map[], {}, multiset{Request(jp.userId, jp.audioOnly)})
  }

  /** Erasing takes whatever the index has under the room's id. */
  ghost function Do(w: Store, step: WorldStep): Store
    requires CanDo(w, step)
  {
    match step
    case ClientJoins(origin, raw) =>
      var jp := ReadJoin(origin, raw).jp;
      var id := GenerateId(jp);
      if id in w.index then
        var r := w.index[id];
        w.(rooms := w.rooms[r := Next(w.rooms[r], JoinUser(jp.userId, jp.audioOnly))])
      else
        w.(index := w.index[id := |w.rooms|], rooms := w.rooms + [NewSys(id, jp)])
    case InRoom(r, s) =>
      var t := Next(w.rooms[r], s);
      w.(rooms := w.rooms[r := t],
         erasing := if t.room.erased > w.rooms[r].room.erased then w.erasing + {r} else w.erasing)
    case Erase(r) =>
      w.(index := w.index - {w.rooms[r].room.id}, erasing := w.erasing - {r})
  }

  /** Still in the store: not deleted, or not erased yet. */
  ghost predicate Held(w: Store, r: nat)
    requires r < |w.rooms|
  {
    !w.rooms[r].room.deleted || r in w.erasing
  }

  /** The index maps to each room still in the store, and to no other. */
  ghost predicate LiveIndexed(w: Store) {
    (forall r :: r in w.erasing ==> r < |w.rooms| && w.rooms[r].room.deleted)
    && (forall r :: 0 <= r < |w.rooms| && Held(w, r) ==>
          w.rooms[r].room.id in w.index && w.index[w.rooms[r].room.id] == r)
    && (forall id :: id in w.index ==>
          w.index[id] < |w.rooms| && w.rooms[w.index[id]].room.id == id && Held(w, w.index[id]))
  }

  ghost predicate WorldInv(w: Store) {
    (forall r :: 0 <= r < |w.rooms| ==> Inv(w.rooms[r])) && LiveIndexed(w)
  }

  lemma Erases(s: Sys)
    requires Inv(s)
    ensures s.room.erased == One(s.room.deleted)
  {
  }

  lemma NewSysInv(id: string, jp: JoinPayload)
    ensures Inv(NewSys(id, jp)) && NewSys(id, jp).room.id == id && !NewSys(id, jp).room.deleted
  {
    InitInv(NewSys(id, jp));
  }

  lemma ReplaceRoom(w: Store, r: nat, t: Sys)
    requires LiveIndexed(w) && r < |w.rooms|
    requires SameRoom(w.rooms[r].room, t.room)
    ensures var erasing := if t.room.deleted && !w.rooms[r].room.deleted then w.erasing + {r} else w.erasing;
            LiveIndexed(w.(rooms := w.rooms[r := t], erasing := erasing))
  {
  }

  lemma ReplaceRoomInv(w: Store, r: nat, t: Sys)
    requires WorldInv(w) && r < |w.rooms| && Inv(t) && SameRoom(w.rooms[r].room, t.room)
    ensures var erasing := if t.room.deleted && !w.rooms[r].room.deleted then w.erasing + {r} else w.erasing;
            WorldInv(w.(rooms := w.rooms[r := t], erasing := erasing))
  {
    ReplaceRoom(w, r, t);
  }

  lemma AddRoom(w: Store, id: string, t: Sys)
    requires LiveIndexed(w) && id !in w.index && t.room.id == id && !t.room.deleted
    ensures LiveIndexed(w.(index := w.index[id := |w.rooms|], rooms := w.rooms + [t]))
  {
    var v := w.(index := w.index[id := |w.rooms|], rooms := w.rooms + [t]);
    forall r | 0 <= r < |w.rooms| && Held(v, r)
      ensures v.rooms[r].room.id in v.index && v.index[v.rooms[r].room.id] == r
    {
      assert Held(w, r);
    }
    forall x | x in w.index ensures Held(v, w.index[x]) {
      assert Held(w, w.index[x]);
    }
  }

  lemma AddRoomInv(w: Store, id: string, t: Sys)
    requires WorldInv(w) && id !in w.index && Inv(t) && t.room.id == id && !t.room.deleted
    ensures WorldInv(w.(index := w.index[id := |w.rooms|], rooms := w.rooms + [t]))
  {
    AddRoom(w, id, t);
  }

  /** A room that is being erased is the one its id leads to. */
  lemma EraseOne(w: Store, r: nat)
    requires LiveIndexed(w) && r in w.erasing
    ensures LiveIndexed(w.(index := w.index - {w.rooms[r].room.id}, erasing := w.erasing - {r}))
  {
    var v := w.(index := w.index - {w.rooms[r].room.id}, erasing := w.erasing - {r});
    assert Held(w, r);
    forall q | 0 <= q < |v.rooms| && Held(v, q)
      ensures v.rooms[q].room.id in v.index && v.index[v.rooms[q].room.id] == q
    {
      assert Held(w, q);
    }
    forall id | id in v.index ensures Held(v, v.index[id]) {
      assert Held(w, w.index[id]);
    }
  }

  lemma EraseInv(w: Store, r: nat)
    requires WorldInv(w) && r in w.erasing
    ensures WorldInv(w.(index := w.index - {w.rooms[r].room.id}, erasing := w.erasing - {r}))
  {
    EraseOne(w, r);
  }

  lemma DoInv(w: Store, step: WorldStep)
    requires WorldInv(w) && CanDo(w, step)
    ensures WorldInv(Do(w, step))
  {
    match step
    case ClientJoins(origin, raw) =>
      var jp := ReadJoin(origin, raw).jp;
      var id := GenerateId(jp);
      if id in w.index {
        JoinExistingInv(w, w.index[id], jp.userId, jp.audioOnly);
      } else {
        NewSysInv(id, jp);
        AddRoomInv(w, id, NewSys(id, jp));
      }
    case InRoom(r, s) => InRoomInv(w, r, s);
    case Erase(r) => EraseInv(w, r);
  }

  lemma JoinExistingInv(w: Store, r: nat, u: UserId, audioOnly: bool)
    requires WorldInv(w) && r < |w.rooms| && CanWrite(w.rooms[r].room)
    ensures WorldInv(w.(rooms := w.rooms[r := Next(w.rooms[r], JoinUser(u, audioOnly))]))
  {
    var t := Next(w.rooms[r], JoinUser(u, audioOnly));
    StepInv(w.rooms[r], JoinUser(u, audioOnly));
    JoinSameRoom(w.rooms[r].room, u);
    ReplaceRoomInv(w, r, t);
  }

  lemma InRoomInv(w: Store, r: nat, s: Step)
    requires WorldInv(w) && CanDo(w, InRoom(r, s))
    ensures WorldInv(Do(w, InRoom(r, s)))
  {
    var t := Next(w.rooms[r], s);
    StepInv(w.rooms[r], s);
    StepSameRoom(w.rooms[r], s);
    Erases(w.rooms[r]);
    Erases(t);
    ReplaceRoomInv(w, r, t);
  }

  ghost predicate WorldRun(worlds: seq<Store>, steps: seq<WorldStep>) {
    |worlds| == |steps| + 1 && worlds[0] == Store(map[], [], {})
    && forall n :: 0 <= n < |steps| ==> CanDo(worlds[n], steps[n]) && worlds[n + 1] == Do(worlds[n], steps[n])
  }

  lemma {:induction false} WorldReachable(worlds: seq<Store>, steps: seq<WorldStep>, n: nat)
    requires WorldRun(worlds, steps) && n < |worlds|
    ensures WorldInv(worlds[n])
  {
    if n > 0 {
      WorldReachable(worlds, steps, n - 1);
      DoInv(worlds[n - 1], steps[n - 1]);
    }
  }

  /** The store never loses a live room: a room made and not deleted is what the index maps
      its id to, and so is a deleted one until it is erased; no entry is anything else; and
      every room asks for its erasure exactly as often as it is deleted, at most once. */
  lemma StoreNeverLosesLiveRoom(worlds: seq<Store>, steps: seq<WorldStep>, n: nat, r: nat)
    requires WorldRun(worlds, steps) && n < |worlds| && r < |worlds[n].rooms|
    ensures var w := worlds[n];
            var room := w.rooms[r].room;
            (!room.deleted || r in w.erasing <==> room.id in w.index && w.index[room.id] == r)
            && room.erased == One(room.deleted)
  {
    WorldReachable(worlds, steps, n);
    Erases(worlds[n].rooms[r]);
    assert Held(worlds[n], r) <==> !worlds[n].rooms[r].room.deleted || r in worlds[n].erasing;
  }

  /** Entries leave the index only by erasure, and an erasure by id takes the entry of the
      deleted room it is meant for, not that of a newer room of the same id. */
  lemma DeletionEvictsOnlyItself(worlds: seq<Store>, steps: seq<WorldStep>, n: nat)
    requires WorldRun(worlds, steps) && n < |steps|
    ensures var w, v := worlds[n], worlds[n + 1];
            if steps[n].Erase?
            then steps[n].r < |w.rooms|
                 && var room := w.rooms[steps[n].r].room;
                    room.deleted && room.id in w.index && w.index[room.id] == steps[n].r
                    && v.index == w.index - {room.id}
            else forall id :: id in w.index ==> id in v.index && v.index[id] == w.index[id]
  {
    WorldReachable(worlds, steps, n);
    StepEvicts(worlds[n], steps[n]);
  }

  lemma StepEvicts(w: Store, step: WorldStep)
    requires LiveIndexed(w) && CanDo(w, step)
    ensures var v := Do(w, step);
            if step.Erase?
            then var room := w.rooms[step.r].room;
                 room.deleted && room.id in w.index && w.index[room.id] == step.r && v.index == w.index - {room.id}
            else forall id :: id in w.index ==> id in v.index && v.index[id] == w.index[id]
  {
    match step
    case Erase(r) => assert Held(w, r);
    case InRoom(r, s) => assert Do(w, step).index == w.index;
    case ClientJoins(_, _) =>
  }

  /** Two accepted payloads whose ids are indexed lead to the same room iff they agree on
      the origin and on the sanitised namespace and interaction name. */
  lemma SameRoomIff(worlds: seq<Store>, steps: seq<WorldStep>, n: nat,
                    o1: string, raw1: JoinPayload, o2: string, raw2: JoinPayload)
    requires WorldRun(worlds, steps) && n < |worlds|
    requires ReadJoin(o1, raw1).Joined? && ReadJoin(o2, raw2).Joined?
    requires GenerateId(ReadJoin(o1, raw1).jp) in worlds[n].index
    requires GenerateId(ReadJoin(o2, raw2).jp) in worlds[n].index
    ensures worlds[n].index[GenerateId(ReadJoin(o1, raw1).jp)] == worlds[n].index[GenerateId(ReadJoin(o2, raw2).jp)]
       <==> o1 == o2
            && ParseString(raw1.space) == ParseString(raw2.space)
            && ParseString(raw1.interactionName) == ParseString(raw2.interactionName)
  {
    WorldReachable(worlds, steps, n);
    SameIdIff(o1, raw1, o2, raw2);
    var id1, id2 := GenerateId(ReadJoin(o1, raw1).jp), GenerateId(ReadJoin(o2, raw2).jp);
    assert worlds[n].rooms[worlds[n].index[id1]].room.id == id1;
    assert worlds[n].rooms[worlds[n].index[id2]].room.id == id2;
  }

  // ---- who joins

  /** The room an accepted payload leads to, once it has joined. */
  ghost function RoomOf(w: Store, origin: string, raw: JoinPayload): nat
    requires CanDo(w, ClientJoins(origin, raw))
  {
    var id := GenerateId(ReadJoin(origin, raw).jp);
    if id in w.index then w.index[id] else |w.rooms|
  }

  /** The outcome the room gives to the payload's user. */
  ghost function Outcome(w: Store, origin: string, raw: JoinPayload): JoinOutcome
    requires CanDo(w, ClientJoins(origin, raw))
  {
    var id := GenerateId(ReadJoin(origin, raw).jp);
    if id in w.index then Join(w.rooms[w.index[id]].room, ReadJoin(origin, raw).jp.userId).1 else NewInteraction
  }

  ghost predicate ConnectedIn(w: Store, r: nat, u: UserId) {
    r < |w.rooms| && IsConnected(w.rooms[r].room, u)
  }

  lemma JoinConnects(r: Room, u: UserId, x: UserId)
    requires Join(r, u).1 != Full
    ensures IsConnected(Join(r, u).0, x) <==> x == u || IsConnected(r, x)
  {
  }

  lemma FullConnectsNobody(r: Room, u: UserId, x: UserId)
    requires Join(r, u).1 == Full
    ensures IsConnected(Join(r, u).0, x) <==> IsConnected(r, x)
    ensures !IsConnected(r, u)
  {
  }

  /** A join connects the sanitised user sent, unless the room is full, and nobody else. */
  lemma SentUserJoins(w: Store, origin: string, raw: JoinPayload, x: UserId)
    requires CanDo(w, ClientJoins(origin, raw))
    ensures var v, r := Do(w, ClientJoins(origin, raw)), RoomOf(w, origin, raw);
            ConnectedIn(v, r, x)
            == (ConnectedIn(w, r, x) || (x == ParseString(raw.userId) && Outcome(w, origin, raw) != Full))
  {
    ReadJoinAnswers(origin, raw);
    var jp := ReadJoin(origin, raw).jp;
    var id := GenerateId(jp);
    if id in w.index {
      if Outcome(w, origin, raw) == Full {
        FullConnectsNobody(w.rooms[w.index[id]].room, jp.userId, x);
      } else {
        JoinConnects(w.rooms[w.index[id]].room, jp.userId, x);
      }
    }
  }

  /** An accepted join leaves a peer server to be made for that user, for audio only exactly if
      that was asked for; a refused one leaves none. */
  lemma SentRequestWaits(w: Store, origin: string, raw: JoinPayload)
    requires CanDo(w, ClientJoins(origin, raw))
    ensures var v, r := Do(w, ClientJoins(origin, raw)), RoomOf(w, origin, raw);
            r < |v.rooms|
            && v.rooms[r].pending
               == (if r < |w.rooms| then w.rooms[r].pending else multiset{})
                  + (if Outcome(w, origin, raw) in {Duplicate, Full} then multiset{}
                     else multiset{Request(ParseString(raw.userId), raw.audioOnly)})
  {
    ReadJoinAnswers(origin, raw);
  }

  /** Of two accepted payloads that come one after the other to one room, the first not refused
      as full, the second is a duplicate exactly if its sanitised user is the first one's, or
      was connected before both. */
  lemma SecondIsDuplicateIff(w: Store, o1: string, raw1: JoinPayload, o2: string, raw2: JoinPayload)
    requires CanDo(w, ClientJoins(o1, raw1)) && Outcome(w, o1, raw1) != Full
    requires var v := Do(w, ClientJoins(o1, raw1));
             CanDo(v, ClientJoins(o2, raw2)) && RoomOf(v, o2, raw2) == RoomOf(w, o1, raw1)
    ensures Outcome(Do(w, ClientJoins(o1, raw1)), o2, raw2) == Duplicate
       <==> ParseString(raw2.userId) == ParseString(raw1.userId)
            || ConnectedIn(w, RoomOf(w, o1, raw1), ParseString(raw2.userId))
  {
    var v, r, u := Do(w, ClientJoins(o1, raw1)), RoomOf(w, o1, raw1), ParseString(raw2.userId);
    SentUserJoins(w, o1, raw1, u);
    ReadJoinAnswers(o2, raw2);
    DuplicateIff(v.rooms[r].room, u);
  }

  lemma DuplicateIff(r: Room, u: UserId)
    ensures Join(r, u).1 == Duplicate <==> IsConnected(r, u)
  {
  }
}
