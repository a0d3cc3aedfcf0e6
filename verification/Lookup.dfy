/** Lookups over the nested vectors, and a team's subscriber list. Pointers into vectors are indices here. */
module Lookup {
  import opened Text
  import opened Model

  /** First position of a key. */
  function Index(keys: seq<string>, key: string): (r: Option<nat>)
    ensures r.Some? ==> r.value < |keys| && keys[r.value] == key
    ensures r.Some? ==> forall j :: 0 <= j < r.value ==> keys[j] != key
    ensures r.None? ==> forall j :: 0 <= j < |keys| ==> keys[j] != key
  {
    if keys == [] then None
    else if keys[0] == key then Some(0)
    else match Index(keys[1..], key)
      case None => None
      case Some(i) =>
        assert forall j :: 1 <= j < |keys| ==> keys[j] == keys[1..][j - 1];
        Some(i + 1)
  }

  /** The first position is determined by what it promises. */
  lemma IndexIs(keys: seq<string>, key: string, i: nat)
    requires i < |keys| && keys[i] == key && forall j :: 0 <= j < i ==> keys[j] != key
    ensures Index(keys, key) == Some(i)
  {
  }

  function UserIds(users: seq<User>): (r: seq<string>)
    ensures |r| == |users| && forall i :: 0 <= i < |users| ==> r[i] == users[i].uuid
  {
    seq(|users|, i requires 0 <= i < |users| => users[i].uuid)
  }

  function UserNames(users: seq<User>): (r: seq<string>)
    ensures |r| == |users| && forall i :: 0 <= i < |users| ==> r[i] == users[i].name
  {
    seq(|users|, i requires 0 <= i < |users| => users[i].name)
  }

  function TeamIds(teams: seq<Team>): (r: seq<string>)
    ensures |r| == |teams| && forall i :: 0 <= i < |teams| ==> r[i] == teams[i].uuid
  {
    seq(|teams|, i requires 0 <= i < |teams| => teams[i].uuid)
  }

  function TeamNames(teams: seq<Team>): (r: seq<string>)
    ensures |r| == |teams| && forall i :: 0 <= i < |teams| ==> r[i] == teams[i].name
  {
    seq(|teams|, i requires 0 <= i < |teams| => teams[i].name)
  }

  function ChannelIds(channels: seq<Channel>): (r: seq<string>)
    ensures |r| == |channels| && forall i :: 0 <= i < |channels| ==> r[i] == channels[i].uuid
  {
    seq(|channels|, i requires 0 <= i < |channels| => channels[i].uuid)
  }

  function ChannelNames(channels: seq<Channel>): (r: seq<string>)
    ensures |r| == |channels| && forall i :: 0 <= i < |channels| ==> r[i] == channels[i].name
  {
    seq(|channels|, i requires 0 <= i < |channels| => channels[i].name)
  }

  function ThreadIds(threads: seq<Thread>): (r: seq<string>)
    ensures |r| == |threads| && forall i :: 0 <= i < |threads| ==> r[i] == threads[i].uuid
  {
    seq(|threads|, i requires 0 <= i < |threads| => threads[i].uuid)
  }

  function ThreadTitles(threads: seq<Thread>): (r: seq<string>)
    ensures |r| == |threads| && forall i :: 0 <= i < |threads| ==> r[i] == threads[i].title
  {
    seq(|threads|, i requires 0 <= i < |threads| => threads[i].title)
  }

  function FindUser(db: Database, uuid: string): Option<nat> {
    Index(UserIds(db.users), uuid)
  }

  function FindUserByName(db: Database, name: string): Option<nat> {
    Index(UserNames(db.users), name)
  }

  function FindTeam(db: Database, uuid: string): Option<nat> {
    Index(TeamIds(db.teams), uuid)
  }

  /** Position of the team and, in it, of the channel. */
  function FindChannel(db: Database, teamUuid: string, channelUuid: string): (r: Option<(nat, nat)>)
    ensures r.Some? ==> r.value.0 < |db.teams| && r.value.1 < |db.teams[r.value.0].channels|
  {
    match FindTeam(db, teamUuid)
    case None => None
    case Some(t) =>
      match Index(ChannelIds(db.teams[t].channels), channelUuid)
      case None => None
      case Some(c) => Some((t, c))
  }

  /** First channel of that id over all teams. */
  function ChannelAnywhere(teams: seq<Team>, uuid: string, from: nat): (r: Option<(nat, nat)>)
    requires from <= |teams|
    ensures r.Some? ==>
              && from <= r.value.0 < |teams| && r.value.1 < |teams[r.value.0].channels|
              && teams[r.value.0].channels[r.value.1].uuid == uuid
    ensures r.None? ==> forall i, j :: from <= i < |teams| && 0 <= j < |teams[i].channels| ==> teams[i].channels[j].uuid != uuid
    decreases |teams| - from
  {
    if from == |teams| then None
    else
      var ids := ChannelIds(teams[from].channels);
      match Index(ids, uuid)
      case Some(c) => Some((from, c))
      case None => ChannelAnywhere(teams, uuid, from + 1)
  }

  /** The thread search looks at the first channel of that id in any team, and at no other. */
  function FindThread(db: Database, channelUuid: string, threadUuid: string): (r: Option<(nat, nat, nat)>)
    ensures r.Some? ==>
              && r.value.0 < |db.teams| && r.value.1 < |db.teams[r.value.0].channels|
              && r.value.2 < |db.teams[r.value.0].channels[r.value.1].threads|
              && db.teams[r.value.0].channels[r.value.1].threads[r.value.2].uuid == threadUuid
  {
    match ChannelAnywhere(db.teams, channelUuid, 0)
    case None => None
    case Some((t, c)) =>
      match Index(ThreadIds(db.teams[t].channels[c].threads), threadUuid)
      case None => None
      case Some(h) => Some((t, c, h))
  }

  // ---------------------------------------------------------------------------
  // The search loops

  method SearchUser(db: Database, uuid: string) returns (r: Option<nat>)
    ensures r == FindUser(db, uuid)
  {
    for i := 0 to |db.users|
      invariant forall j :: 0 <= j < i ==> db.users[j].uuid != uuid
    {
      if db.users[i].uuid == uuid {
        IndexIs(UserIds(db.users), uuid, i);
        return Some(i);
      }
    }
    return None;
  }

  method SearchUserByName(db: Database, name: string) returns (r: Option<nat>)
    ensures r == FindUserByName(db, name)
  {
    for i := 0 to |db.users|
      invariant forall j :: 0 <= j < i ==> db.users[j].name != name
    {
      if db.users[i].name == name {
        IndexIs(UserNames(db.users), name, i);
        return Some(i);
      }
    }
    return None;
  }

  method SearchTeam(db: Database, uuid: string) returns (r: Option<nat>)
    ensures r == FindTeam(db, uuid)
  {
    for i := 0 to |db.teams|
      invariant forall j :: 0 <= j < i ==> db.teams[j].uuid != uuid
    {
      if db.teams[i].uuid == uuid {
        IndexIs(TeamIds(db.teams), uuid, i);
        return Some(i);
      }
    }
    return None;
  }

  method SearchChannel(db: Database, teamUuid: string, channelUuid: string) returns (r: Option<(nat, nat)>)
    ensures r == FindChannel(db, teamUuid, channelUuid)
  {
    var team := SearchTeam(db, teamUuid);
    if team.None? {
      return None;
    }
    var channels := db.teams[team.value].channels;
    for i := 0 to |channels|
      invariant forall j :: 0 <= j < i ==> channels[j].uuid != channelUuid
    {
      if channels[i].uuid == channelUuid {
        IndexIs(ChannelIds(channels), channelUuid, i);
        return Some((team.value, i));
      }
    }
    return None;
  }

  method SearchThread(db: Database, channelUuid: string, threadUuid: string) returns (r: Option<(nat, nat, nat)>)
    ensures r == FindThread(db, channelUuid, threadUuid)
  {
    for t := 0 to |db.teams|
      invariant ChannelAnywhere(db.teams, channelUuid, 0) == ChannelAnywhere(db.teams, channelUuid, t)
    {
      var channels := db.teams[t].channels;
      for c := 0 to |channels|
        invariant forall j :: 0 <= j < c ==> channels[j].uuid != channelUuid
      {
        if channels[c].uuid == channelUuid {
          IndexIs(ChannelIds(channels), channelUuid, c);
          var threads := channels[c].threads;
          for h := 0 to |threads|
            invariant forall j :: 0 <= j < h ==> threads[j].uuid != threadUuid
          {
            if threads[h].uuid == threadUuid {
              IndexIs(ThreadIds(threads), threadUuid, h);
              return Some((t, c, h));
            }
          }
          return None;
        }
      }
    }
    return None;
  }

  // ---------------------------------------------------------------------------
  // Subscribers

  function Subscribe(subs: seq<string>, user: string): seq<string> {
    if user in subs then subs else subs + [user]
  }

  function Without(subs: seq<string>, user: string): (r: seq<string>)
    ensures forall u :: u in r <==> u in subs && u != user
  {
    if subs == [] then []
    else if subs[0] == user then Without(subs[1..], user)
    else [subs[0]] + Without(subs[1..], user)
  }

  predicate Distinct(xs: seq<string>) {
    forall i, j :: 0 <= i < j < |xs| ==> xs[i] != xs[j]
  }

  /** Adding refines set insertion and keeps the list duplicate-free and in order. */
  lemma SubscribeRefinesInsert(subs: seq<string>, user: string)
    requires Distinct(subs)
    ensures Distinct(Subscribe(subs, user)) && subs <= Subscribe(subs, user)
    ensures (set u | u in Subscribe(subs, user)) == (set u | u in subs) + {user}
  {
  }

  lemma {:induction false} WithoutAbsent(subs: seq<string>, user: string)
    requires user !in subs
    ensures Without(subs, user) == subs
  {
    if subs != [] {
      WithoutAbsent(subs[1..], user);
    }
  }

  lemma {:induction false} WithoutAppend(a: seq<string>, b: seq<string>, user: string)
    ensures Without(a + b, user) == Without(a, user) + Without(b, user)
  {
    if a == [] {
      assert a + b == b;
    } else {
      assert (a + b)[1..] == a[1..] + b;
      WithoutAppend(a[1..], b, user);
    }
  }

  lemma WithoutAround(a: seq<string>, user: string, b: seq<string>)
    requires user !in a && user !in b
    ensures Without(a + ([user] + b), user) == a + b
  {
    WithoutAppend(a, [user] + b, user);
    WithoutAbsent(a, user);
    WithoutAbsent(b, user);
    assert ([user] + b)[1..] == b;
  }

  /** Removing from a duplicate-free list cuts out one position and keeps the others in order. */
  lemma WithoutCutsOne(subs: seq<string>, i: nat)
    requires Distinct(subs) && i < |subs|
    ensures Without(subs, subs[i]) == subs[..i] + subs[i + 1..]
  {
    assert subs == subs[..i] + ([subs[i]] + subs[i + 1..]);
    WithoutAround(subs[..i], subs[i], subs[i + 1..]);
  }

  lemma {:induction false} WithoutDistinct(subs: seq<string>, user: string)
    requires Distinct(subs)
    ensures Distinct(Without(subs, user))
  {
    if subs != [] {
      var rest := subs[1..];
      assert forall i :: 0 <= i < |rest| ==> rest[i] == subs[i + 1];
      WithoutDistinct(rest, user);
      assert subs[0] !in Without(rest, user);
    }
  }

  method AddSubscriber(subs: seq<string>, user: string) returns (added: bool, r: seq<string>)
    ensures r == Subscribe(subs, user) && (added <==> user !in subs)
  {
    if user in subs {
      return false, subs;
    }
    return true, subs + [user];
  }

  /** In place: the kept elements move to the front, then the rest is erased. */
  method RemoveSubscriber(subs: array<string>, user: string) returns (removed: bool, kept: nat)
    modifies subs
    ensures kept <= subs.Length && subs[..kept] == Without(old(subs[..]), user)
    ensures removed <==> user in old(subs[..])
  {
    kept := 0;
    ghost var was := subs[..];
    for i := 0 to subs.Length
      invariant kept <= i
      invariant subs[i..] == was[i..]
      invariant subs[..kept] == Without(was[..i], user)
      invariant kept < i <==> user in was[..i]
    {
      assert subs[i] == subs[i..][0] == was[i];
      assert was[..i + 1] == was[..i] + [was[i]];
      WithoutAppend(was[..i], [was[i]], user);
      assert Without([was[i]], user) == if was[i] == user then [] else [was[i]];
      assert subs[i + 1..] == subs[i..][1..];
      assert was[i + 1..] == was[i..][1..];
      if subs[i] != user {
        subs[kept] := subs[i];
        kept := kept + 1;
        assert subs[..kept] == subs[..kept - 1] + [was[i]];
      }
    }
    assert was[..subs.Length] == was;
    removed := kept < subs.Length;
  }
}
