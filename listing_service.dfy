/** The game-server listing registry: `gameServers`, an object keyed by the
    Colyseus client id of each connected game server, changed by the
    listing room's connect, `update` and disconnect callbacks and read by
    the `/listing` and `/listing/total-player` routes. */
module ListingService {
  import Common
  import Dict

  /** `IGameServerData`; the property `map` is named `mapName` here, `map`
      being a Dafny keyword. */
  datatype GameServer = GameServer(
    id: string, address: string, port: int, title: string, description: string,
    mapName: string, currentPlayer: int, maxPlayer: int)

  /** The sum of `currentPlayer` over a list of servers. */
  function Total(servers: seq<GameServer>): int {
    if servers == [] then 0
    else Total(servers[..|servers| - 1]) + servers[|servers| - 1].currentPlayer
  }

  lemma {:induction false} TotalConcat(a: seq<GameServer>, b: seq<GameServer>)
    ensures Total(a + b) == Total(a) + Total(b)
  {
    if b != [] {
      assert (a + b)[..|a + b| - 1] == a + b[..|b| - 1];
      TotalConcat(a, b[..|b| - 1]);
    } else {
      assert a + b == a;
    }
  }

  /** Replacing one server changes the total by the difference of the two
      player counts. */
  lemma TotalUpdate(s: seq<GameServer>, i: nat, v: GameServer)
    requires i < |s|
    ensures Total(s[i := v]) == Total(s) - s[i].currentPlayer + v.currentPlayer
  {
    assert s == s[..i] + [s[i]] + s[i + 1..];
    assert s[i := v] == s[..i] + [v] + s[i + 1..];
    TotalConcat(s[..i] + [s[i]], s[i + 1..]);
    TotalConcat(s[..i], [s[i]]);
    TotalConcat(s[..i] + [v], s[i + 1..]);
    TotalConcat(s[..i], [v]);
    assert Total([s[i]]) == s[i].currentPlayer by { assert [s[i]][..0] == []; }
    assert Total([v]) == v.currentPlayer by { assert [v][..0] == []; }
  }

  /** Registering a server adds its players and takes away those of the
      entry it overwrites, if any. */
  lemma TotalAfterPut(d: Dict.Dict<string, GameServer>, k: string, v: GameServer)
    requires Dict.Wf(d)
    ensures Total(Dict.Values(Dict.Put(d, k, v)))
         == Total(Dict.Values(d)) - (if Dict.HasKey(d, k) then Dict.Get(d, k).currentPlayer else 0) + v.currentPlayer
  {
    var i := Common.IndexOf(Dict.Keys(d), k);
    if i >= 0 {
      assert Dict.Values(Dict.Put(d, k, v)) == Dict.Values(d)[i := v];
      TotalUpdate(Dict.Values(d), i, v);
    } else {
      assert Dict.Values(Dict.Put(d, k, v)) == Dict.Values(d) + [v];
      assert (Dict.Values(d) + [v])[..|Dict.Values(d)|] == Dict.Values(d);
    }
  }

  /** Unregistering a server takes away exactly its players. */
  lemma TotalAfterRemove(d: Dict.Dict<string, GameServer>, k: string)
    requires Dict.Wf(d)
    ensures Total(Dict.Values(Dict.Remove(d, k)))
         == Total(Dict.Values(d)) - (if Dict.HasKey(d, k) then Dict.Get(d, k).currentPlayer else 0)
  {
    var i := Common.IndexOf(Dict.Keys(d), k);
    if i >= 0 {
      var s := Dict.Values(d);
      assert Dict.Values(Dict.Remove(d, k)) == s[..i] + s[i + 1..];
      assert s == s[..i] + [s[i]] + s[i + 1..];
      TotalConcat(s[..i] + [s[i]], s[i + 1..]);
      TotalConcat(s[..i], [s[i]]);
      TotalConcat(s[..i], s[i + 1..]);
      assert Total([s[i]]) == s[i].currentPlayer by { assert [s[i]][..0] == []; }
    }
  }

  class ListingService {
    var gameServers: Dict.Dict<string, GameServer>

    /** Keys are unique and every entry's `id` is its key. */
    ghost predicate Valid()
      reads this
    {
      && Dict.Wf(gameServers)
      && forall i :: 0 <= i < |gameServers| ==> gameServers[i].1.id == gameServers[i].0
    }

    constructor ()
      ensures Valid() && gameServers == []
    {
      gameServers := [];
    }

    /** `onConnect`: registers (or overwrites) the server under its client
        id, built from the connection options' `data`. */
    method OnConnect(clientId: string, data: GameServer)
      requires Valid()
      modifies this
      ensures Valid()
      ensures gameServers == Dict.Put(old(gameServers), clientId, data.(id := clientId))
      ensures Dict.HasKey(gameServers, clientId) && Dict.Get(gameServers, clientId) == data.(id := clientId)
      ensures forall k :: k != clientId ==> (Dict.HasKey(gameServers, k) <==> Dict.HasKey(old(gameServers), k))
      ensures forall k :: k != clientId && Dict.HasKey(old(gameServers), k) ==>
        Dict.Get(gameServers, k) == Dict.Get(old(gameServers), k)
      ensures Total(Dict.Values(gameServers)) == Total(Dict.Values(old(gameServers)))
        - (if Dict.HasKey(old(gameServers), clientId) then Dict.Get(old(gameServers), clientId).currentPlayer else 0)
        + data.currentPlayer
    {
      var gameServer := data.(id := clientId);
      Dict.PutSpec(gameServers, clientId, gameServer);
      TotalAfterPut(gameServers, clientId, gameServer);
      gameServers := Dict.Put(gameServers, clientId, gameServer);
    }

    /** The `update` message: replaces a registered server's record with the
        message, its `id` forced to the sender's client id; a sender that
        is not registered changes nothing. */
    method Update(clientId: string, msg: GameServer)
      requires Valid()
      modifies this
      ensures Valid()
      ensures !Dict.HasKey(old(gameServers), clientId) ==> gameServers == old(gameServers)
      ensures Dict.HasKey(old(gameServers), clientId) ==>
        && gameServers == Dict.Put(old(gameServers), clientId, msg.(id := clientId))
        && Dict.Keys(gameServers) == Dict.Keys(old(gameServers))
        && Dict.Get(gameServers, clientId) == msg.(id := clientId)
    {
      if Dict.HasKey(gameServers, clientId) {
        var updated := msg.(id := clientId);
        Dict.PutSpec(gameServers, clientId, updated);
        gameServers := Dict.Put(gameServers, clientId, updated);
      }
    }

    /** `onDisconnect`: unregisters the server if it is registered. */
    method OnDisconnect(clientId: string)
      requires Valid()
      modifies this
      ensures Valid()
      ensures gameServers == Dict.Remove(old(gameServers), clientId)
      ensures !Dict.HasKey(gameServers, clientId)
      ensures !Dict.HasKey(old(gameServers), clientId) ==> gameServers == old(gameServers)
      ensures forall k :: k != clientId ==> (Dict.HasKey(gameServers, k) <==> Dict.HasKey(old(gameServers), k))
      ensures forall k :: k != clientId && Dict.HasKey(old(gameServers), k) ==>
        Dict.Get(gameServers, k) == Dict.Get(old(gameServers), k)
    {
      Dict.RemoveSpec(gameServers, clientId);
      gameServers := Dict.Remove(gameServers, clientId);
    }

    /** `GET /listing`: every registered server, in enumeration order. */
    method Listing() returns (result: seq<GameServer>)
      requires Valid()
      ensures result == Dict.Values(gameServers)
      ensures forall k :: Dict.HasKey(gameServers, k) ==> Dict.Get(gameServers, k) in result
      ensures forall s :: s in result ==> Dict.HasKey(gameServers, s.id) && Dict.Get(gameServers, s.id) == s
    {
      result := [];
      for i := 0 to |gameServers|
        invariant result == Dict.Values(gameServers[..i])
      {
        result := result + [gameServers[i].1];
      }
      assert gameServers[..|gameServers|] == gameServers;
      forall k | Dict.HasKey(gameServers, k)
        ensures Dict.Get(gameServers, k) in result
      {
        assert result[Common.IndexOf(Dict.Keys(gameServers), k)] == Dict.Get(gameServers, k);
      }
      forall s | s in result
        ensures Dict.HasKey(gameServers, s.id) && Dict.Get(gameServers, s.id) == s
      {
        var j :| 0 <= j < |result| && result[j] == s;
        Dict.GetAt(gameServers, j);
      }
    }

    /** `GET /listing/total-player`: the sum of `currentPlayer` over the
        registered servers. */
    method TotalPlayer() returns (totalPlayer: int)
      ensures totalPlayer == Total(Dict.Values(gameServers))
    {
      totalPlayer := 0;
      for i := 0 to |gameServers|
        invariant totalPlayer == Total(Dict.Values(gameServers[..i]))
      {
        assert Dict.Values(gameServers[..i + 1])[..i] == Dict.Values(gameServers[..i]);
        totalPlayer := totalPlayer + gameServers[i].1.currentPlayer;
      }
      assert gameServers[..|gameServers|] == gameServers;
    }
  }
}
