/** Who hears what of a command, where identifiers are found, and which command a line starts. */
module Outcomes {
  import opened Text
  import opened Protocol
  import opened Framing
  import opened Model
  import opened Lookup
  import opened Commands
  import opened Delivery
  import opened Invariant
  import opened FramesKeep

  // ---------------------------------------------------------------------------
  // Who hears what

  /** These frames go to one client, and nothing to anybody else. */
  ghost predicate Tells(e: Effect, fd: int, frames: seq<Frame>) {
    forall f :: FramesFor(f, e.outs) == if f == fd then frames else []
  }

  /** Nothing changes, and these frames go to the requester alone. */
  ghost predicate Only(db: Database, me: Client, fd: int, e: Effect, frames: seq<Frame>) {
    e.db == db && e.user == me.user && e.ctx == me.ctx && Tells(e, fd, frames)
  }

  lemma OneFor(f: int, out: Out)
    ensures FramesFor(f, [out]) == if f in out.to then [out.frame] else []
  {
    assert [out][1..] == [];
  }

  lemma TwoFor(f: int, a: Out, b: Out)
    ensures FramesFor(f, [a, b]) == (if f in a.to then [a.frame] else []) + (if f in b.to then [b.frame] else [])
  {
    assert [a, b][1..] == [b];
    OneFor(f, b);
  }

  lemma AnswerTells(db: Database, me: Client, fd: int, frame: Frame)
    ensures Only(db, me, fd, Answer(db, me, fd, frame), [frame])
  {
    forall f ensures FramesFor(f, Answer(db, me, fd, frame).outs) == if f == fd then [frame] else [] {
      OneFor(f, To(fd, frame));
    }
  }

  lemma EachTells(db: Database, user: string, ctx: Context, fd: int, frames: seq<Frame>)
    ensures Tells(Effect(db, user, ctx, ToEach(fd, frames)), fd, frames)
  {
    forall f ensures FramesFor(f, ToEach(fd, frames)) == if f == fd then frames else [] {
      ToEachFor(fd, frames, f);
    }
  }

  /** A list block with the words that are sent around its lines. */
  function BlockOf(name: string, lines: seq<Frame>): seq<Frame> {
    [[Word("210-BEGIN"), Word(name)]] + lines + [[Word("210-END"), Word(name)]]
  }

  lemma AnswerListTells(db: Database, me: Client, fd: int, kind: Kind, lines: seq<Frame>)
    ensures Only(db, me, fd, AnswerList(db, me, fd, kind, lines), BlockOf(KindName(kind), lines))
  {
    EachTells(db, me.user, me.ctx, fd, ListBlock(kind, lines));
  }

  /** An effect that is the answer with a list. */
  lemma ListTells(db: Database, me: Client, fd: int, e: Effect, kind: Kind, lines: seq<Frame>)
    requires e == AnswerList(db, me, fd, kind, lines)
    ensures Only(db, me, fd, e, BlockOf(KindName(kind), lines))
  {
    AnswerListTells(db, me, fd, kind, lines);
  }

  lemma UserRowIs(u: User)
    ensures UserLine(u) == [Word("210"), Field(u.uuid), Field(u.name), Word(if u.connections > 0 then "1" else "0")]
  {
  }

  lemma TeamRowIs(t: Team)
    ensures TeamLine(t) == [Word("210"), Field(t.uuid), Field(t.name), Field(t.description)]
  {
  }

  /** What one client has after a command: its own frames behind what was pending, and for the requester its session. */
  lemma ApplyShare(clients: Clients, fd: int, e: Effect, f: int)
    requires fd in clients && f in clients
    ensures var c := if f == fd then clients[f].(user := e.user, ctx := e.ctx) else clients[f];
            Apply(clients, fd, e)[f] == c.(writeBuffer := c.writeBuffer + Wire(FrameTexts(FramesFor(f, e.outs))))
  {
    DeliverBuffers(SetSession(clients, fd, e.user, e.ctx), e.outs, f);
  }

  // ---------------------------------------------------------------------------
  // Where identifiers are found

  ghost predicate IsTeam(db: Database, uuid: string) {
    exists t :: 0 <= t < |db.teams| && db.teams[t].uuid == uuid
  }

  ghost predicate HasChannel(team: Team, uuid: string) {
    exists c :: 0 <= c < |team.channels| && team.channels[c].uuid == uuid
  }

  ghost predicate HasThread(channel: Channel, uuid: string) {
    exists h :: 0 <= h < |channel.threads| && channel.threads[h].uuid == uuid
  }

  lemma UserAt(db: Database, i: nat)
    requires UsersOk(db.users) && i < |db.users|
    ensures FindUser(db, db.users[i].uuid) == Some(i)
  {
    IndexIs(UserIds(db.users), db.users[i].uuid, i);
  }

  lemma TeamAt(db: Database, t: nat)
    requires TeamsOk(db.users, db.teams) && t < |db.teams|
    ensures FindTeam(db, db.teams[t].uuid) == Some(t)
  {
    IndexIs(TeamIds(db.teams), db.teams[t].uuid, t);
  }

  lemma NoTeam(db: Database, uuid: string)
    requires !IsTeam(db, uuid)
    ensures FindTeam(db, uuid).None?
  {
  }

  lemma ChannelAt(db: Database, t: nat, c: nat)
    requires TeamsOk(db.users, db.teams) && t < |db.teams| && c < |db.teams[t].channels|
    ensures FindChannel(db, db.teams[t].uuid, db.teams[t].channels[c].uuid) == Some((t, c))
  {
    TeamAt(db, t);
    var channels := db.teams[t].channels;
    forall j | 0 <= j < c ensures channels[j].uuid != channels[c].uuid {
      assert ChannelIdsUnique(db.teams);
    }
    IndexIs(ChannelIds(channels), channels[c].uuid, c);
  }

  lemma NoChannel(db: Database, t: nat, uuid: string)
    requires TeamsOk(db.users, db.teams) && t < |db.teams| && !HasChannel(db.teams[t], uuid)
    ensures FindChannel(db, db.teams[t].uuid, uuid).None?
  {
    TeamAt(db, t);
  }

  lemma ThreadAt(db: Database, t: nat, c: nat, h: nat)
    requires TeamsOk(db.users, db.teams)
    requires t < |db.teams| && c < |db.teams[t].channels| && h < |db.teams[t].channels[c].threads|
    ensures FindThread(db, db.teams[t].channels[c].uuid, db.teams[t].channels[c].threads[h].uuid) == Some((t, c, h))
  {
    ChannelAnywhereIs(db.teams, t, c);
    assert TeamOk(db.users, db.teams[t]);
    assert ChannelOk(db.users, db.teams[t].channels[c]);
    var threads := db.teams[t].channels[c].threads;
    IndexIs(ThreadIds(threads), threads[h].uuid, h);
  }

  lemma NoThread(db: Database, t: nat, c: nat, uuid: string)
    requires TeamsOk(db.users, db.teams) && t < |db.teams| && c < |db.teams[t].channels|
    requires !HasThread(db.teams[t].channels[c], uuid)
    ensures FindThread(db, db.teams[t].channels[c].uuid, uuid).None?
  {
    ChannelAnywhereIs(db.teams, t, c);
  }

  // ---------------------------------------------------------------------------
  // Which command a line starts

  lemma Dispatched(db: Database, clients: Clients, fd: int, args: seq<string>, id: string, now: int)
    requires fd in clients && args != []
    ensures var e := Execute(db, clients, fd, args, id, now);
            && (args[0] == "/create" ==> e == Create(db, clients, fd, args, id, now))
            && (args[0] == "/list" ==> e == ListHere(db, clients, fd))
            && (args[0] == "/use" ==> e == Use(db, clients, fd, args))
            && (args[0] == "/info" ==> e == Info(db, clients, fd))
            && (args[0] == "/subscribe" ==> e == SubscribeTo(db, clients, fd, args))
            && (args[0] == "/unsubscribe" ==> e == UnsubscribeFrom(db, clients, fd, args))
            && (args[0] == "/subscribed" ==> e == Subscribed(db, clients, fd, args))
            && (args[0] == "/login" ==> e == Login(db, clients, fd, args, id))
            && (args[0] == "/logout" ==> e == Logout(db, clients, fd))
            && (args[0] == "/send" ==> e == Send(db, clients, fd, args, now))
            && (args[0] == "/messages" ==> e == MessagesOf(db, clients, fd, args))
            && (args[0] == "/user" ==> e == UserInfo(db, clients, fd, args))
            && (args[0] == "/users" ==> e == ListUsers(db, clients, fd))
  {
  }
}
