/** The application's relational store (users, teams, teammates, grants) as in-memory tables.
  * Each table is keyed the way the database's unique constraints key it. */
module Store {
  import opened Wrappers

  /** A local account mirroring a social-network account; `id` is the account's fid rendered as a string. */
  datatype User = User(id: string, username: string, avatarUrl: Option<string>, signerUuid: Option<string>)

  datatype Team = Team(id: string, name: string)

  /** Membership row, unique per (userId, teamId). */
  datatype Teammate = Teammate(userId: string, teamId: string)

  /** "User `userId` lets team `teamId` cast as them", unique per (userId, teamId). */
  datatype Grant = Grant(userId: string, teamId: string)

  /** A snapshot of the four tables. */
  datatype Tables = Tables(
    users: map<string, User>,
    teams: map<string, Team>,
    teammates: set<Teammate>,
    grants: set<Grant>)

  /** Every user row is stored under its own id (the primary key). */
  predicate UsersKeyed(users: map<string, User>)
  {
    forall id :: id in users ==> users[id].id == id
  }

  /** The live store; the request handlers read it and the sign-in callbacks write its `users` table. */
  class Database {
    var users: map<string, User>
    var teams: map<string, Team>
    var teammates: set<Teammate>
    var grants: set<Grant>

    function Snapshot(): Tables
      reads this
    {
      Tables(users, teams, teammates, grants)
    }

    constructor (initial: Tables)
      ensures Snapshot() == initial
    {
      users, teams, teammates, grants := initial.users, initial.teams, initial.teammates, initial.grants;
    }
  }
}
