/** `src/store/session.ts`: the rooms calculated during this browser
    session. `addCalculatedRooms` merges through a JavaScript `Map` keyed by
    room name; the `Map` is modelled by its keys in insertion order and a
    finite map from key to value. */
module SessionStore {
  import opened Wrappers
  import opened Types
  import opened Seqs

  function RoomNameOf(r: Room): string { r.roomName }

  function Names(rooms: seq<Room>): (names: seq<string>)
    ensures |names| == |rooms| && forall i :: 0 <= i < |rooms| ==> names[i] == rooms[i].roomName
  {
    seq(|rooms|, i requires 0 <= i < |rooms| => rooms[i].roomName)
  }

  /** `map.set(room.roomName, room)` seen on the map's values: an entry with
      that name is replaced where it stands, otherwise the room is appended. */
  function Upsert(entries: seq<Room>, room: Room): seq<Room> {
    if exists i :: 0 <= i < |entries| && RoomNameOf(entries[i]) == room.roomName
    then entries[FirstIndex(entries, RoomNameOf, room.roomName) := room]
    else entries + [room]
  }

  /** The values of a `Map` after setting every room of `rooms` in turn. */
  function UpsertAll(rooms: seq<Room>): seq<Room> {
    if rooms == [] then [] else Upsert(UpsertAll(rooms[..|rooms| - 1]), rooms[|rooms| - 1])
  }

  /** What `addCalculatedRooms(newRooms)` leaves: the map built from the
      current rooms, then every new room set in it. */
  function Merged(current: seq<Room>, newRooms: seq<Room>): seq<Room> {
    UpsertAll(current + newRooms)
  }

  /** The last room with a given name. */
  function LastWithName(rooms: seq<Room>, name: string): Room
    requires exists i :: 0 <= i < |rooms| && rooms[i].roomName == name
  {
    var n := |rooms| - 1;
    if rooms[n].roomName == name then rooms[n]
    else
      assert exists i :: 0 <= i < n && rooms[..n][i].roomName == name by {
        var i :| 0 <= i < |rooms| && rooms[i].roomName == name;
        assert rooms[..n][i] == rooms[i];
      }
      LastWithName(rooms[..n], name)
  }

  /** The merged names are the names of the current and then the new
      rooms, each once, in order of first appearance: a replaced room keeps
      its position and unseen names are appended in input order. */
  lemma {:induction false} MergedNames(rooms: seq<Room>)
    ensures Names(UpsertAll(rooms)) == KeysInOrder(rooms, RoomNameOf)
  {
    if rooms != [] {
      var p, x := rooms[..|rooms| - 1], rooms[|rooms| - 1];
      MergedNames(p);
      var e := UpsertAll(p);
      assert rooms[..|rooms| - 1] == p;
      if exists i :: 0 <= i < |e| && RoomNameOf(e[i]) == x.roomName {
        var f := FirstIndex(e, RoomNameOf, x.roomName);
        assert Names(e[f := x]) == Names(e);
        assert x.roomName in Names(e);
      } else {
        assert Names(e + [x]) == Names(e) + [x.roomName];
        assert x.roomName !in Names(e);
      }
    }
  }

  lemma UpsertCases(e: seq<Room>, x: Room)
    ensures || (exists f :: 0 <= f < |e| && e[f].roomName == x.roomName && Upsert(e, x) == e[f := x])
            || ((forall k :: 0 <= k < |e| ==> e[k].roomName != x.roomName) && Upsert(e, x) == e + [x])
  {
    if exists i :: 0 <= i < |e| && RoomNameOf(e[i]) == x.roomName {
      var f := FirstIndex(e, RoomNameOf, x.roomName);
      assert e[f].roomName == x.roomName && Upsert(e, x) == e[f := x];
    }
  }

  /** The last room named `name` in `p + [x]`, for a name other than x's. */
  lemma LastWithNameSkip(p: seq<Room>, x: Room, name: string, j: nat)
    requires j < |p| && p[j].roomName == name && x.roomName != name
    ensures (p + [x])[j] == p[j] && LastWithName(p + [x], name) == LastWithName(p, name)
  {
    assert (p + [x])[..|p|] == p;
  }

  /** Every merged entry is the last room given with its name. */
  lemma {:induction false} MergedLastWins(rooms: seq<Room>, i: nat)
    requires i < |UpsertAll(rooms)|
    ensures exists j :: 0 <= j < |rooms| && rooms[j].roomName == UpsertAll(rooms)[i].roomName
    ensures UpsertAll(rooms)[i] == LastWithName(rooms, UpsertAll(rooms)[i].roomName)
  {
    var p, x := rooms[..|rooms| - 1], rooms[|rooms| - 1];
    var e := UpsertAll(p);
    assert rooms == p + [x];
    MergedNames(p);
    UpsertCases(e, x);
    if i < |e| && e[i].roomName != x.roomName {
      MergedLastWins(p, i);
      var j :| 0 <= j < |p| && p[j].roomName == e[i].roomName;
      assert UpsertAll(rooms)[i] == e[i] by {
        if exists f :: 0 <= f < |e| && e[f].roomName == x.roomName && Upsert(e, x) == e[f := x] {
          var f :| 0 <= f < |e| && e[f].roomName == x.roomName && Upsert(e, x) == e[f := x];
          assert f != i;
        }
      }
      LastWithNameSkip(p, x, e[i].roomName, j);
      assert rooms[j] == p[j];
    } else {
      assert UpsertAll(rooms)[i] == x by {
        if exists f :: 0 <= f < |e| && e[f].roomName == x.roomName && Upsert(e, x) == e[f := x] {
          var f :| 0 <= f < |e| && e[f].roomName == x.roomName && Upsert(e, x) == e[f := x];
          assert Names(e)[f] == Names(e)[i] ==> f == i;
        }
      }
      assert rooms[|rooms| - 1] == x;
    }
  }

  /** The merged names are pairwise distinct. */
  lemma MergedDistinct(current: seq<Room>, newRooms: seq<Room>)
    ensures Distinct(Names(Merged(current, newRooms)))
  {
    MergedNames(current + newRooms);
  }

  // ---------------------------------------------------------------------
  // The JavaScript `Map`

  /** A `Map` keyed by room name: distinct keys in insertion order, each
      with its value. */
  ghost predicate MapValid(keys: seq<string>, vals: map<string, Room>) {
    && (forall i, j :: 0 <= i < j < |keys| ==> keys[i] != keys[j])
    && (forall k :: k in vals <==> k in keys)
    && (forall i :: 0 <= i < |keys| ==> vals[keys[i]].roomName == keys[i])
  }

  /** `Array.from(map.values())`. */
  function Values(keys: seq<string>, vals: map<string, Room>): (r: seq<Room>)
    requires forall i :: 0 <= i < |keys| ==> keys[i] in vals
    ensures |r| == |keys|
  {
    seq(|keys|, i requires 0 <= i < |keys| => vals[keys[i]])
  }

  /** `map.set(room.roomName, room)`: a new key goes last, an existing
      key keeps its place. */
  function MapSet(keys: seq<string>, vals: map<string, Room>, room: Room): (m: (seq<string>, map<string, Room>))
    requires MapValid(keys, vals)
    ensures MapValid(m.0, m.1)
    ensures Values(m.0, m.1) == Upsert(Values(keys, vals), room)
  {
    MapSetIsUpsert(keys, vals, room);
    (if room.roomName in vals then keys else keys + [room.roomName], vals[room.roomName := room])
  }

  /** Setting a key of the `Map` is an upsert on its values. */
  lemma MapSetIsUpsert(keys: seq<string>, vals: map<string, Room>, room: Room)
    requires MapValid(keys, vals)
    ensures var keys' := if room.roomName in vals then keys else keys + [room.roomName];
            MapValid(keys', vals[room.roomName := room])
            && Values(keys', vals[room.roomName := room]) == Upsert(Values(keys, vals), room)
  {
    if room.roomName in vals {
      MapSetExisting(keys, vals, room);
    } else {
      MapSetNew(keys, vals, room);
    }
  }

  /** An existing key: its value is replaced where it stands. */
  lemma MapSetExisting(keys: seq<string>, vals: map<string, Room>, room: Room)
    requires MapValid(keys, vals) && room.roomName in vals
    ensures MapValid(keys, vals[room.roomName := room])
    ensures Values(keys, vals[room.roomName := room]) == Upsert(Values(keys, vals), room)
  {
    var e := Values(keys, vals);
    var k := room.roomName;
    var i :| 0 <= i < |keys| && keys[i] == k;
    assert RoomNameOf(e[i]) == k;
    var f := FirstIndex(e, RoomNameOf, k);
    assert f == i by {
      assert e[f].roomName == keys[f];
    }
    assert Upsert(e, room) == e[i := room];
  }

  /** A new key: its value goes last. */
  lemma MapSetNew(keys: seq<string>, vals: map<string, Room>, room: Room)
    requires MapValid(keys, vals) && room.roomName !in vals
    ensures MapValid(keys + [room.roomName], vals[room.roomName := room])
    ensures Values(keys + [room.roomName], vals[room.roomName := room]) == Upsert(Values(keys, vals), room)
  {
    var e := Values(keys, vals);
    assert forall i :: 0 <= i < |e| ==> RoomNameOf(e[i]) != room.roomName;
    assert Upsert(e, room) == e + [room];
  }

  class Store {
    var calculatedRooms: seq<Room>

    /** The rooms start as what session storage held, or none when it held
        nothing readable. */
    constructor(stored: Option<seq<Room>>)
      ensures calculatedRooms == (if stored.Some? then stored.value else [])
    {
      calculatedRooms := if stored.Some? then stored.value else [];
    }

    /** `addCalculatedRooms`: a `Map` from the current rooms, every new room
        set in it, its values stored back. */
    method AddCalculatedRooms(newRooms: seq<Room>)
      modifies this
      ensures calculatedRooms == Merged(old(calculatedRooms), newRooms)
    {
      var all := calculatedRooms + newRooms;
      var keys: seq<string>, vals: map<string, Room> := [], map[];
      for i := 0 to |all|
        invariant MapValid(keys, vals)
        invariant Values(keys, vals) == UpsertAll(all[..i])
      {
        var m := MapSet(keys, vals, all[i]);
        keys, vals := m.0, m.1;
        assert all[..i + 1][..i] == all[..i];
      }
      assert all[..|all|] == all;
      var updatedRooms := [];
      for i := 0 to |keys|
        invariant updatedRooms == Values(keys, vals)[..i]
      {
        updatedRooms := updatedRooms + [vals[keys[i]]];
      }
      calculatedRooms := updatedRooms;
    }

    method ClearCalculatedRooms()
      modifies this
      ensures calculatedRooms == []
    {
      calculatedRooms := [];
    }

    method HasCalculatedRooms() returns (b: bool)
      ensures b <==> calculatedRooms != []
    {
      b := |calculatedRooms| > 0;
    }

    method GetCalculatedRooms() returns (r: seq<Room>)
      ensures r == calculatedRooms
    {
      r := calculatedRooms;
    }
  }
}
