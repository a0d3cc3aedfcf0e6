/** The stored entities. They live by value inside vectors, so they are values here. */
module Model {

  datatype Message = Message(sender: string, receiver: string, timestamp: int, body: string)

  datatype Reply = Reply(uuid: string, author: string, timestamp: int, body: string)

  datatype Thread =
    Thread(uuid: string, author: string, timestamp: int, title: string, body: string, replies: seq<Reply>)

  datatype Channel = Channel(uuid: string, name: string, description: string, threads: seq<Thread>)

  datatype Team =
    Team(uuid: string, name: string, description: string, subscribers: seq<string>, channels: seq<Channel>)

  /** `messages` maps each interlocutor to the conversation with them. */
  datatype User =
    User(uuid: string, name: string, connections: nat, teams: seq<string>, messages: map<string, seq<Message>>)

  datatype Database = Database(users: seq<User>, teams: seq<Team>)
}
