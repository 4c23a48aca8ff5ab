/** What the controller knows about one user, as rows of the tables a snapshot carries. */
module Identities {
  import opened Base

  datatype Account = Account(username: string, role: string, status: string, banReason: string)
  datatype Token = Token(user: UserId, name: string, hash: string, status: string, banReason: string,
                         maxProxies: int, expiresAt: Option<int>)
  datatype Policy = Policy(portStart: int, portEnd: int, maxPorts: int, protocols: seq<string>, enabled: bool)
  datatype Grant = Grant(token: int, protocol: string, portStart: int, portEnd: int, maxCount: int,
                         domain: string, subdomain: string, enabled: bool)

  /** One user's share of the five identity tables. */
  datatype Identity = Identity(account: Account, tokens: map<int, Token>, policy: Option<Policy>,
                               grants: map<int, Grant>, dpi: Option<string>)

  type Ip = string
  datatype Block = Block(reason: string, createdAt: int)

  /** An identity message, with each list of rows as a map from its primary key. */
  datatype Snapshot = Snapshot(revision: nat, incremental: bool, baseline: bool, baselineEnd: bool,
                               users: map<UserId, Identity>, removed: set<UserId>,
                               replaceBlocked: bool, blocked: map<Ip, Block>, removedBlocked: set<Ip>)
  {
    function Ids(): set<UserId> { users.Keys + removed }
  }
}
