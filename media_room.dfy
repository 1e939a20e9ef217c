/** The media room's message handlers (`sub`, `play`, `pause`, `stop`,
    `seek`, `volume`, `switch`), each one atomic step over the media
    service's playlist records and subscriber lists. A handler returns the
    messages it sends, in sending order. */
module MediaRoom {
  import opened Common
  import opened MediaService

  /** A playlist's subscriber list, or the empty list the handlers create
      for it when it has none. */
  function SubscribersOf(subscribers: map<string, seq<ConnId>>, playListId: string): seq<ConnId> {
    if playListId in subscribers then subscribers[playListId] else []
  }

  /** A control command goes ahead only for an admin token and an existing
      playlist. */
  predicate MayControl(svc: MediaService, userToken: string, playListId: string)
    reads svc
  {
    userToken in svc.adminUserTokens && playListId in svc.playLists
  }

  /** `if (!hasOwnProperty(playListSubscribers, id)) playListSubscribers[id] = []`. */
  method EnsureSubscriberList(svc: MediaService, playListId: string)
    requires svc.Valid()
    modifies svc`playListSubscribers
    ensures svc.Valid()
    ensures svc.playListSubscribers
         == old(svc.playListSubscribers)[playListId := SubscribersOf(old(svc.playListSubscribers), playListId)]
  {
    if playListId !in svc.playListSubscribers {
      svc.playListSubscribers := svc.playListSubscribers[playListId := []];
    }
  }

  /** The common tail of the control handlers: make sure a subscriber list
      exists, store the changed record, and send its `resp` to every
      subscriber. */
  method Publish(svc: MediaService, playListId: string, p: PlayList) returns (sent: seq<Send>)
    requires svc.Valid()
    modifies svc`playLists, svc`playListSubscribers
    ensures svc.Valid()
    ensures svc.playLists == old(svc.playLists)[playListId := p]
    ensures svc.playListSubscribers
         == old(svc.playListSubscribers)[playListId := SubscribersOf(old(svc.playListSubscribers), playListId)]
    ensures sent == FanOut(svc.playListSubscribers[playListId], RespOf(playListId, p))
  {
    EnsureSubscriberList(svc, playListId);
    svc.playLists := svc.playLists[playListId := p];
    sent := SendToAll(svc.playListSubscribers[playListId], RespOf(playListId, p));
  }

  /** `sub`: adds the socket to the playlist's subscribers unless it is
      there already, then answers that socket alone with the current state
      if the playlist exists. */
  method Sub(svc: MediaService, socket: ConnId, playListId: string) returns (sent: seq<Send>)
    requires svc.Valid()
    modifies svc`playListSubscribers
    ensures svc.Valid()
    ensures var before := SubscribersOf(old(svc.playListSubscribers), playListId);
      svc.playListSubscribers == old(svc.playListSubscribers)[playListId :=
        if socket in before then before else before + [socket]]
    ensures socket in svc.playListSubscribers[playListId]
    ensures sent == if playListId in svc.playLists
                    then [Send(socket, "resp", RespOf(playListId, svc.playLists[playListId]))]
                    else []
  {
    EnsureSubscriberList(svc, playListId);
    var current := svc.playListSubscribers[playListId];
    if IndexOf(current, socket) < 0 {
      svc.playListSubscribers := svc.playListSubscribers[playListId := current + [socket]];
    }
    if playListId !in svc.playLists {
      return [];
    }
    sent := [Send(socket, "resp", RespOf(playListId, svc.playLists[playListId]))];
  }

  /** `play`: sets `isPlaying` and tells every subscriber. */
  method Play(svc: MediaService, userToken: string, playListId: string) returns (sent: seq<Send>)
    requires svc.Valid()
    modifies svc`playLists, svc`playListSubscribers
    ensures svc.Valid()
    ensures !old(MayControl(svc, userToken, playListId)) ==>
      sent == [] && svc.playLists == old(svc.playLists) && svc.playListSubscribers == old(svc.playListSubscribers)
    ensures old(MayControl(svc, userToken, playListId)) ==>
      && svc.playLists == old(svc.playLists)[playListId := old(svc.playLists[playListId]).(isPlaying := true)]
      && svc.playListSubscribers
         == old(svc.playListSubscribers)[playListId := SubscribersOf(old(svc.playListSubscribers), playListId)]
      && sent == FanOut(svc.playListSubscribers[playListId], RespOf(playListId, svc.playLists[playListId]))
  {
    if IndexOf(svc.adminUserTokens, userToken) < 0 || playListId !in svc.playLists {
      return [];
    }
    var current := svc.playLists[playListId];
    sent := Publish(svc, playListId, current.(isPlaying := true));
  }

  /** `pause`: clears `isPlaying` and tells every subscriber. */
  method Pause(svc: MediaService, userToken: string, playListId: string) returns (sent: seq<Send>)
    requires svc.Valid()
    modifies svc`playLists, svc`playListSubscribers
    ensures svc.Valid()
    ensures !old(MayControl(svc, userToken, playListId)) ==>
      sent == [] && svc.playLists == old(svc.playLists) && svc.playListSubscribers == old(svc.playListSubscribers)
    ensures old(MayControl(svc, userToken, playListId)) ==>
      && svc.playLists == old(svc.playLists)[playListId := old(svc.playLists[playListId]).(isPlaying := false)]
      && svc.playListSubscribers
         == old(svc.playListSubscribers)[playListId := SubscribersOf(old(svc.playListSubscribers), playListId)]
      && sent == FanOut(svc.playListSubscribers[playListId], RespOf(playListId, svc.playLists[playListId]))
  {
    if IndexOf(svc.adminUserTokens, userToken) < 0 || playListId !in svc.playLists {
      return [];
    }
    var current := svc.playLists[playListId];
    sent := Publish(svc, playListId, current.(isPlaying := false));
  }

  /** `stop`: clears `isPlaying`, rewinds `time` to 0 and tells every subscriber. */
  method Stop(svc: MediaService, userToken: string, playListId: string) returns (sent: seq<Send>)
    requires svc.Valid()
    modifies svc`playLists, svc`playListSubscribers
    ensures svc.Valid()
    ensures !old(MayControl(svc, userToken, playListId)) ==>
      sent == [] && svc.playLists == old(svc.playLists) && svc.playListSubscribers == old(svc.playListSubscribers)
    ensures old(MayControl(svc, userToken, playListId)) ==>
      && svc.playLists == old(svc.playLists)[playListId := old(svc.playLists[playListId]).(isPlaying := false, time := 0.0)]
      && svc.playListSubscribers
         == old(svc.playListSubscribers)[playListId := SubscribersOf(old(svc.playListSubscribers), playListId)]
      && sent == FanOut(svc.playListSubscribers[playListId], RespOf(playListId, svc.playLists[playListId]))
  {
    if IndexOf(svc.adminUserTokens, userToken) < 0 || playListId !in svc.playLists {
      return [];
    }
    var current := svc.playLists[playListId];
    sent := Publish(svc, playListId, current.(isPlaying := false, time := 0.0));
  }

  /** `seek`: sets `time` to the requested time and tells every subscriber. */
  method Seek(svc: MediaService, userToken: string, playListId: string, time: real) returns (sent: seq<Send>)
    requires svc.Valid()
    modifies svc`playLists, svc`playListSubscribers
    ensures svc.Valid()
    ensures !old(MayControl(svc, userToken, playListId)) ==>
      sent == [] && svc.playLists == old(svc.playLists) && svc.playListSubscribers == old(svc.playListSubscribers)
    ensures old(MayControl(svc, userToken, playListId)) ==>
      && svc.playLists == old(svc.playLists)[playListId := old(svc.playLists[playListId]).(time := time)]
      && svc.playListSubscribers
         == old(svc.playListSubscribers)[playListId := SubscribersOf(old(svc.playListSubscribers), playListId)]
      && sent == FanOut(svc.playListSubscribers[playListId], RespOf(playListId, svc.playLists[playListId]))
  {
    if IndexOf(svc.adminUserTokens, userToken) < 0 || playListId !in svc.playLists {
      return [];
    }
    var current := svc.playLists[playListId];
    sent := Publish(svc, playListId, current.(time := time));
  }

  /** `volume`: sets `volume` to the requested value and tells every subscriber. */
  method Volume(svc: MediaService, userToken: string, playListId: string, volume: real) returns (sent: seq<Send>)
    requires svc.Valid()
    modifies svc`playLists, svc`playListSubscribers
    ensures svc.Valid()
    ensures !old(MayControl(svc, userToken, playListId)) ==>
      sent == [] && svc.playLists == old(svc.playLists) && svc.playListSubscribers == old(svc.playListSubscribers)
    ensures old(MayControl(svc, userToken, playListId)) ==>
      && svc.playLists == old(svc.playLists)[playListId := old(svc.playLists[playListId]).(volume := Some(volume))]
      && svc.playListSubscribers
         == old(svc.playListSubscribers)[playListId := SubscribersOf(old(svc.playListSubscribers), playListId)]
      && sent == FanOut(svc.playListSubscribers[playListId], RespOf(playListId, svc.playLists[playListId]))
  {
    if IndexOf(svc.adminUserTokens, userToken) < 0 || playListId !in svc.playLists {
      return [];
    }
    var current := svc.playLists[playListId];
    sent := Publish(svc, playListId, current.(volume := Some(volume)));
  }

  /** `findFirst where { id, playListId }`: the first stored video with both
      the id and the playlist, if any. */
  function FindVideo(videos: seq<Video>, mediaId: string, playListId: string): (r: Option<Video>)
    ensures r.None? <==> forall v :: v in videos ==> !(v.id == mediaId && v.playListId == playListId)
    ensures r.Some? ==> r.value in videos && r.value.id == mediaId && r.value.playListId == playListId
  {
    if videos == [] then None
    else if videos[0].id == mediaId && videos[0].playListId == playListId then Some(videos[0])
    else
      assert videos == [videos[0]] + videos[1..];
      FindVideo(videos[1..], mediaId, playListId)
  }

  /** `switch`: moves the playlist to a video of the same playlist, playing
      from 0, and tells every subscriber; an unknown video changes nothing
      but the (possibly created) empty subscriber list. */
  method Switch(svc: MediaService, userToken: string, playListId: string, mediaId: string) returns (sent: seq<Send>)
    requires svc.Valid()
    modifies svc`playLists, svc`playListSubscribers
    ensures svc.Valid()
    ensures !old(MayControl(svc, userToken, playListId)) ==>
      sent == [] && svc.playLists == old(svc.playLists) && svc.playListSubscribers == old(svc.playListSubscribers)
    ensures old(MayControl(svc, userToken, playListId)) ==>
      svc.playListSubscribers
        == old(svc.playListSubscribers)[playListId := SubscribersOf(old(svc.playListSubscribers), playListId)]
    ensures old(MayControl(svc, userToken, playListId)) && FindVideo(svc.videos, mediaId, playListId).None? ==>
      sent == [] && svc.playLists == old(svc.playLists)
    ensures old(MayControl(svc, userToken, playListId)) && FindVideo(svc.videos, mediaId, playListId).Some? ==>
      var media := FindVideo(svc.videos, mediaId, playListId).value;
      && svc.playLists == old(svc.playLists)[playListId := old(svc.playLists[playListId]).(
           mediaId := mediaId, isPlaying := true, filePath := media.filePath, time := 0.0,
           duration := Some(media.duration))]
      && sent == FanOut(svc.playListSubscribers[playListId], RespOf(playListId, svc.playLists[playListId]))
  {
    if IndexOf(svc.adminUserTokens, userToken) < 0 || playListId !in svc.playLists {
      return [];
    }
    var current := svc.playLists[playListId];
    EnsureSubscriberList(svc, playListId);
    var media := FindVideo(svc.videos, mediaId, playListId);
    if media.None? {
      return [];
    }
    sent := Publish(svc, playListId, current.(
      mediaId := mediaId, isPlaying := true, filePath := media.value.filePath, time := 0.0,
      duration := Some(media.value.duration)));
  }
}
