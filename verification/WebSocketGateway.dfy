/** The gateway's own code, updating its two maps in place. */
module WebSocketGateway {
  import opened Prelude
  import opened SocketRegistry

  function SocketsOf(index: Index, key: string): set<nat> {
    if key in index then index[key] else {}
  }

  lemma OnlyOne(sockets: set<nat>, client: nat)
    ensures |sockets + {client}| == 1 <==> sockets <= {client}
  {
    if sockets <= {client} {
      assert sockets + {client} == {client};
    } else {
      var other :| other in sockets && other != client;
      assert |{other, client}| == 2;
      assert sockets + {client} == {other, client} + (sockets - {other, client});
    }
  }

  class AppWebSocketGateway {
    var userSockets: map<string, set<nat>>
    var orgSockets: map<string, set<nat>>
    var broadcasts: seq<Broadcast>

    constructor ()
      ensures Current() == Start().reg
    {
      userSockets, orgSockets, broadcasts := map[], map[], [];
    }

    function Current(): Registry
      reads this
    {
      Registry(userSockets, orgSockets, broadcasts)
    }

    /** From the token check on: None when the token is missing or invalid, or when
        joining a room failed. */
    method HandleConnection(client: nat, verified: Option<Identity>)
      modifies this
      ensures Current() == if verified.None? then old(Current()) else Register(old(Current()), client, verified.value)
      ensures verified.None? ==> unchanged(this)
      ensures verified.Some? ==>
                var user, org := verified.value.user, verified.value.org;
                && userSockets == old(userSockets)[user := SocketsOf(old(userSockets), user) + {client}]
                && orgSockets == old(orgSockets)[org := SocketsOf(old(orgSockets), org) + {client}]
                && broadcasts
                   == old(broadcasts) + if SocketsOf(old(userSockets), user) <= {client} then [Online(user)] else []
    {
      if verified.None? {
        return;
      }
      var userId := verified.value.user;
      var orgId := verified.value.org;
      if userId !in userSockets {
        userSockets := userSockets[userId := {}];
      }
      userSockets := userSockets[userId := userSockets[userId] + {client}];
      if orgId !in orgSockets {
        orgSockets := orgSockets[orgId := {}];
      }
      orgSockets := orgSockets[orgId := orgSockets[orgId] + {client}];
      assert userSockets == Add(old(userSockets), userId, client);
      assert orgSockets == Add(old(orgSockets), orgId, client);
      OnlyOne(SocketsOf(old(userSockets), userId), client);
      var wasOffline := userId !in userSockets || |userSockets[userId]| == 1;
      if wasOffline {
        broadcasts := broadcasts + [Online(userId)];
      }
    }

    /** `data` is what the connection handler stored on the socket, if it got there. */
    method HandleDisconnect(client: nat, data: Option<Identity>)
      modifies this
      ensures Current() == Unregister(old(Current()), client, data)
      ensures data.None? ==> unchanged(this)
    {
      if data.None? {
        return;
      }
      var userId := data.value.user;
      var orgId := data.value.org;
      if userId != "" && userId in userSockets {
        userSockets := userSockets[userId := userSockets[userId] - {client}];
        if |userSockets[userId]| == 0 {
          userSockets := userSockets - {userId};
          assert userSockets == old(userSockets) - {userId};
          if orgId != "" {
            broadcasts := broadcasts + [Offline(userId)];
          }
        }
      }
      if orgId != "" && orgId in orgSockets {
        orgSockets := orgSockets[orgId := orgSockets[orgId] - {client}];
        if |orgSockets[orgId]| == 0 {
          orgSockets := orgSockets - {orgId};
          assert orgSockets == old(orgSockets) - {orgId};
        }
      }
    }

    method UserOnline(userId: string) returns (online: bool)
      ensures online == IsUserOnline(Current(), userId)
    {
      online := userId in userSockets && |userSockets[userId]| > 0;
    }
  }
}
