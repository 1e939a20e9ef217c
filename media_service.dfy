/** The media service: the admin-token list, the in-memory playlist records
    and subscriber lists, the pending-deletion list, and the HTTP routes that
    change them (add-user, remove-user, upload, delete, playlist listing).
    The persisted `videos` table is a sequence of rows held by the same
    object; each route is one atomic step. */
module MediaService {
  import opened Common

  /** A row of the persisted `videos` table. */
  datatype Video = Video(id: string, playListId: string, filePath: string, duration: real, sortOrder: int)

  /** The in-memory record of one playlist. `volume`, `duration` and
      `mediaDuration` are JavaScript properties that a record may lack:
      upload writes `mediaDuration`, `switch` writes `duration`, and only the
      `volume` command writes `volume`. */
  datatype PlayList = PlayList(
    mediaId: string, isPlaying: bool, filePath: string, time: real,
    volume: Option<real>, duration: Option<real>, mediaDuration: Option<real>)

  /** The payload of a `resp` message; an absent property is `None`. */
  datatype Resp = Resp(
    playListId: string, mediaId: string, isPlaying: bool, filePath: string,
    time: real, volume: Option<real>, duration: Option<real>)

  /** One message put on a connection: recipient, topic, payload. */
  datatype Send = Send(to: ConnId, topic: string, payload: Resp)

  /** The file part of an upload request. */
  datatype UploadedFile = UploadedFile(name: string)

  /** `sendResp`: the `resp` payload built from a playlist record. */
  function RespOf(playListId: string, p: PlayList): Resp {
    Resp(playListId, p.mediaId, p.isPlaying, p.filePath, p.time, p.volume, p.duration)
  }

  /** One `resp` with payload `r` to each subscriber, in list order. */
  function FanOut(subscribers: seq<ConnId>, r: Resp): seq<Send> {
    seq(|subscribers|, i requires 0 <= i < |subscribers| => Send(subscribers[i], "resp", r))
  }

  /** To a duplicate-free subscriber list, a fan-out delivers `r` exactly
      once to every subscriber and to nobody else. */
  lemma FanOutOncePerSubscriber(subscribers: seq<ConnId>, r: Resp)
    requires NoDup(subscribers)
    ensures var sent := FanOut(subscribers, r);
      && (forall i :: 0 <= i < |sent| ==> sent[i].payload == r && sent[i].topic == "resp")
      && (forall c :: c in subscribers <==> exists i :: 0 <= i < |sent| && sent[i].to == c)
      && (forall i, j :: 0 <= i < |sent| && 0 <= j < |sent| && sent[i].to == sent[j].to ==> i == j)
  {
    var sent := FanOut(subscribers, r);
    forall c | c in subscribers
      ensures exists i :: 0 <= i < |sent| && sent[i].to == c
    {
      var i := IndexOf(subscribers, c);
      assert sent[i].to == c;
    }
  }

  /** The `forEach` / `for ... of` loop that sends `resp` to every subscriber. */
  method SendToAll(subscribers: seq<ConnId>, r: Resp) returns (sent: seq<Send>)
    ensures sent == FanOut(subscribers, r)
  {
    sent := [];
    for i := 0 to |subscribers|
      invariant sent == FanOut(subscribers[..i], r)
    {
      sent := sent + [Send(subscribers[i], "resp", r)];
    }
    assert subscribers[..|subscribers|] == subscribers;
  }

  function Ids(videos: seq<Video>): seq<string> {
    seq(|videos|, i requires 0 <= i < |videos| => videos[i].id)
  }

  /** The primary key `id` is unique. */
  ghost predicate UniqueIds(videos: seq<Video>) {
    NoDup(Ids(videos))
  }

  /** Within each playlist, `sortOrder` strictly increases in store order. */
  ghost predicate Ascending(videos: seq<Video>) {
    forall i, j :: 0 <= i < j < |videos| && videos[i].playListId == videos[j].playListId ==>
      videos[i].sortOrder < videos[j].sortOrder
  }

  /** The largest `sortOrder` among a playlist's videos (the row that
      `findFirst ... orderBy sortOrder desc` returns), or `None` when the
      playlist has no video. */
  function MaxSortOrder(videos: seq<Video>, playListId: string): (m: Option<int>)
    ensures m.None? <==> forall v :: v in videos ==> v.playListId != playListId
    ensures m.Some? ==>
      && (exists v :: v in videos && v.playListId == playListId && v.sortOrder == m.value)
      && (forall v :: v in videos && v.playListId == playListId ==> v.sortOrder <= m.value)
  {
    if videos == [] then None
    else
      var rest := MaxSortOrder(videos[1..], playListId);
      assert videos == [videos[0]] + videos[1..];
      if videos[0].playListId != playListId then rest
      else if rest.Some? && rest.value >= videos[0].sortOrder then rest
      else Some(videos[0].sortOrder)
  }

  /** The `sortOrder` an upload gives its new video. */
  function NextSortOrder(videos: seq<Video>, playListId: string): int {
    match MaxSortOrder(videos, playListId)
    case None => 1
    case Some(m) => m + 1
  }

  /** A new video is one past the playlist's largest `sortOrder` (1 for the
      first video), so appending it keeps every playlist ascending. */
  lemma {:induction false} AppendNextKeepsAscending(videos: seq<Video>, v: Video)
    requires Ascending(videos)
    requires v.sortOrder == NextSortOrder(videos, v.playListId)
    ensures Ascending(videos + [v])
    ensures MaxSortOrder(videos, v.playListId).None? ==> v.sortOrder == 1
    ensures forall w :: w in videos && w.playListId == v.playListId ==> w.sortOrder < v.sortOrder
  {
    var s := videos + [v];
    forall i, j | 0 <= i < j < |s| && s[i].playListId == s[j].playListId
      ensures s[i].sortOrder < s[j].sortOrder
    {
      if j == |videos| {
        assert s[i] in videos;
      }
    }
  }

  /** `findMany where playListId`: one playlist's videos, in store order. */
  function OfPlayList(videos: seq<Video>, playListId: string): (r: seq<Video>)
    ensures forall v :: v in r <==> v in videos && v.playListId == playListId
  {
    if videos == [] then []
    else
      assert videos == [videos[0]] + videos[1..];
      (if videos[0].playListId == playListId then [videos[0]] else []) + OfPlayList(videos[1..], playListId)
  }

  /** The videos whose id is not pending deletion, order kept. */
  function Kept(videos: seq<Video>, deleting: seq<string>): seq<Video> {
    if videos == [] then []
    else (if videos[0].id in deleting then [] else [videos[0]]) + Kept(videos[1..], deleting)
  }

  /** The deletion filter keeps exactly the videos not pending deletion. */
  lemma {:induction false} KeptMembers(videos: seq<Video>, deleting: seq<string>)
    ensures forall v :: v in Kept(videos, deleting) <==> v in videos && v.id !in deleting
  {
    if videos != [] {
      KeptMembers(videos[1..], deleting);
      assert videos == [videos[0]] + videos[1..];
    }
  }

  /** What the playlist listing route answers with. */
  function Listed(videos: seq<Video>, deleting: seq<string>, playListId: string): seq<Video> {
    Kept(OfPlayList(videos, playListId), deleting)
  }

  /** Splicing from the back: the kept suffix from `index` on. */
  lemma {:induction false} KeptStep(all: seq<Video>, index: nat, deleting: seq<string>)
    requires index < |all|
    ensures Kept(all[index..], deleting)
         == (if all[index].id in deleting then [] else [all[index]]) + Kept(all[index + 1..], deleting)
  {
    assert all[index..][1..] == all[index + 1..];
  }

  /** One step of the backwards splice loop: deciding position `index`
      extends the decided suffix by one. */
  lemma {:induction false} SpliceStep(list: seq<Video>, all: seq<Video>, index: nat, deleting: seq<string>)
    requires index < |all|
    requires list == all[..index + 1] + Kept(all[index + 1..], deleting)
    ensures index < |list| && list[index] == all[index]
    ensures (if all[index].id in deleting then list[..index] + list[index + 1..] else list)
         == all[..index] + Kept(all[index..], deleting)
  {
    var prefix, x, rest := all[..index], all[index], Kept(all[index + 1..], deleting);
    assert |prefix| == index;
    assert all[..index + 1] == prefix + [x];
    assert list == prefix + [x] + rest;
    DropAt(prefix, x, rest);
    KeptStep(all, index, deleting);
    if x.id in deleting {
      assert Kept(all[index..], deleting) == rest;
    } else {
      assert Kept(all[index..], deleting) == [x] + rest;
      assert prefix + ([x] + rest) == prefix + [x] + rest;
    }
  }

  /** Splicing out the element that follows a prefix. */
  lemma DropAt<T>(prefix: seq<T>, x: T, rest: seq<T>)
    ensures var s := prefix + [x] + rest;
      && s[|prefix|] == x
      && s[..|prefix|] + s[|prefix| + 1..] == prefix + rest
  {
    var s := prefix + [x] + rest;
    assert s[..|prefix|] == prefix;
    assert s[|prefix| + 1..] == rest;
  }

  ghost predicate StrictlySorted(videos: seq<Video>) {
    forall i, j :: 0 <= i < j < |videos| ==> videos[i].sortOrder < videos[j].sortOrder
  }

  /** Dropping the first video keeps every playlist ascending. */
  lemma TailAscending(videos: seq<Video>)
    requires Ascending(videos) && videos != []
    ensures Ascending(videos[1..])
  {
    var tail := videos[1..];
    forall i, j | 0 <= i < j < |tail| && tail[i].playListId == tail[j].playListId
      ensures tail[i].sortOrder < tail[j].sortOrder
    {
      assert tail[i] == videos[i + 1] && tail[j] == videos[j + 1];
    }
  }

  lemma TailSorted(videos: seq<Video>)
    requires StrictlySorted(videos) && videos != []
    ensures StrictlySorted(videos[1..])
    ensures forall w :: w in videos[1..] ==> videos[0].sortOrder < w.sortOrder
  {
    var tail := videos[1..];
    forall i, j | 0 <= i < j < |tail|
      ensures tail[i].sortOrder < tail[j].sortOrder
    {
      assert tail[i] == videos[i + 1] && tail[j] == videos[j + 1];
    }
    forall w | w in tail
      ensures videos[0].sortOrder < w.sortOrder
    {
      var j :| 0 <= j < |tail| && tail[j] == w;
      assert videos[j + 1] == w;
    }
  }

  /** The first video comes before every later one of its playlist. */
  lemma HeadFirst(videos: seq<Video>)
    requires Ascending(videos) && videos != []
    ensures forall w :: w in videos[1..] && w.playListId == videos[0].playListId ==> videos[0].sortOrder < w.sortOrder
  {
    var tail := videos[1..];
    forall w | w in tail && w.playListId == videos[0].playListId
      ensures videos[0].sortOrder < w.sortOrder
    {
      var j :| 0 <= j < |tail| && tail[j] == w;
      assert videos[j + 1] == w;
    }
  }

  lemma ConsSorted(x: Video, rest: seq<Video>)
    requires StrictlySorted(rest)
    requires forall w :: w in rest ==> x.sortOrder < w.sortOrder
    ensures StrictlySorted([x] + rest)
  {
    var r := [x] + rest;
    forall i, j | 0 <= i < j < |r|
      ensures r[i].sortOrder < r[j].sortOrder
    {
      assert r[j] == rest[j - 1];
      if i > 0 {
        assert r[i] == rest[i - 1];
      } else {
        assert rest[j - 1] in rest;
      }
    }
  }

  lemma {:induction false} OfPlayListSorted(videos: seq<Video>, playListId: string)
    requires Ascending(videos)
    ensures StrictlySorted(OfPlayList(videos, playListId))
  {
    if videos != [] {
      TailAscending(videos);
      OfPlayListSorted(videos[1..], playListId);
      if videos[0].playListId == playListId {
        HeadFirst(videos);
        ConsSorted(videos[0], OfPlayList(videos[1..], playListId));
      }
    }
  }

  lemma {:induction false} KeptSorted(videos: seq<Video>, deleting: seq<string>)
    requires StrictlySorted(videos)
    ensures StrictlySorted(Kept(videos, deleting))
  {
    if videos != [] {
      TailSorted(videos);
      KeptSorted(videos[1..], deleting);
      KeptMembers(videos[1..], deleting);
      if videos[0].id !in deleting {
        ConsSorted(videos[0], Kept(videos[1..], deleting));
      }
    }
  }

  /** The listing holds exactly the playlist's videos not pending deletion,
      in strictly ascending `sortOrder`. */
  lemma ListedSpec(videos: seq<Video>, deleting: seq<string>, playListId: string)
    requires Ascending(videos)
    ensures var r := Listed(videos, deleting, playListId);
      && (forall v :: v in r <==> v in videos && v.playListId == playListId && v.id !in deleting)
      && StrictlySorted(r)
  {
    OfPlayListSorted(videos, playListId);
    KeptSorted(OfPlayList(videos, playListId), deleting);
    KeptMembers(OfPlayList(videos, playListId), deleting);
  }

  /** The path an upload stores its file under. */
  function SavePath(id: string, fileName: string): string {
    "./uploads/" + id + "_" + fileName
  }

  /** `validateUser` as the upload and delete routes register it: passed as
      an unbound method, so `this` is undefined inside it, and as soon as a
      header is present, reading `this.adminUserTokens` throws a TypeError,
      which Express answers with 500. */
  function ValidateUserAsWritten(authorization: Option<string>): (g: Gate)
    ensures g != Next
    ensures Present(authorization) ==> g == Reject(500)
  {
    if !Present(authorization) then Reject(400) else Reject(500)
  }

  /** An admin's well-formed request, which the bound guard lets through, is
      refused by the guard as registered: upload and delete are unreachable. */
  lemma ValidateUserAsWrittenRefusesAdmin(token: string)
    ensures ValidateUserAsWritten(Some("Bearer " + token)) == Reject(500)
    ensures BearerGate(Some("Bearer " + token), [token]) == Next
  {
    BearerGateDecidesOnToken("Bearer ", token, [token]);
  }

  class MediaService {
    /** `JSON.parse(process.env.SECRET_KEYS || "[]")`. */
    const secretKeys: seq<string>
    var playLists: map<string, PlayList>
    var playListSubscribers: map<string, seq<ConnId>>
    var deletingMediaIds: seq<string>
    var adminUserTokens: seq<string>
    /** The persisted `videos` table, in store order. */
    var videos: seq<Video>

    ghost predicate Valid()
      reads this
    {
      && NoDup(adminUserTokens)
      && (forall id :: id in playListSubscribers ==> NoDup(playListSubscribers[id]))
      && UniqueIds(videos)
      && Ascending(videos)
    }

    /** The in-memory tables start empty; the persisted catalog is whatever
        the database already holds. */
    constructor (secretKeys: seq<string>, videos: seq<Video>)
      requires UniqueIds(videos) && Ascending(videos)
      ensures Valid()
      ensures this.secretKeys == secretKeys && this.videos == videos
      ensures playLists == map[] && playListSubscribers == map[]
      ensures deletingMediaIds == [] && adminUserTokens == []
    {
      this.secretKeys, this.videos := secretKeys, videos;
      playLists, playListSubscribers := map[], map[];
      deletingMediaIds, adminUserTokens := [], [];
    }

    /** `validateSystem`: the header's token must be one of the secret keys. */
    function ValidateSystem(authorization: Option<string>): (g: Gate)
      reads this
      ensures g == Next <==> Present(authorization) && BearerToken(authorization.value) in secretKeys
      ensures g != Next ==> g == Reject(400)
    {
      BearerGate(authorization, secretKeys)
    }

    /** `validateUser` as it evidently is meant to run, bound to this service:
        the header's token must be an admin token. */
    function ValidateUser(authorization: Option<string>): (g: Gate)
      reads this
      ensures g == Next <==> Present(authorization) && BearerToken(authorization.value) in adminUserTokens
      ensures g != Next ==> g == Reject(400)
    {
      BearerGate(authorization, adminUserTokens)
    }

    /** `POST /add-user`: registers an admin token once. */
    method AddUserRoute(authorization: Option<string>, userToken: string) returns (status: int)
      requires Valid()
      modifies this`adminUserTokens
      ensures Valid()
      ensures old(ValidateSystem(authorization)) != Next ==>
        status == 400 && adminUserTokens == old(adminUserTokens)
      ensures old(ValidateSystem(authorization)) == Next ==>
        && status == 200
        && adminUserTokens == (if userToken in old(adminUserTokens) then old(adminUserTokens)
                               else old(adminUserTokens) + [userToken])
    {
      var gate := ValidateSystem(authorization);
      if gate != Next {
        return gate.status;
      }
      if IndexOf(adminUserTokens, userToken) < 0 {
        adminUserTokens := adminUserTokens + [userToken];
      }
      status := 200;
    }

    /** `POST /remove-user`: splices the token out if present. */
    method RemoveUserRoute(authorization: Option<string>, userToken: string) returns (status: int)
      requires Valid()
      modifies this`adminUserTokens
      ensures Valid()
      ensures old(ValidateSystem(authorization)) != Next ==>
        status == 400 && adminUserTokens == old(adminUserTokens)
      ensures old(ValidateSystem(authorization)) == Next ==>
        && status == 200
        && userToken !in adminUserTokens
        && adminUserTokens == (if userToken in old(adminUserTokens)
                               then RemoveAt(old(adminUserTokens), IndexOf(old(adminUserTokens), userToken))
                               else old(adminUserTokens))
    {
      var gate := ValidateSystem(authorization);
      if gate != Next {
        return gate.status;
      }
      var index := IndexOf(adminUserTokens, userToken);
      if index >= 0 {
        RemoveFirstOccurrence(adminUserTokens, userToken);
        adminUserTokens := RemoveAt(adminUserTokens, index);
      }
      status := 200;
    }

    /** The writes of an accepted upload, before its notification: store the
        video with the next `sortOrder`, create the playlist record if there
        is none, and, for the playlist's first video, make sure its
        subscriber list exists. `first` tells whether it was the first. */
    method StoreUpload(id: string, playListId: string, path: string, duration: real) returns (first: bool)
      requires Valid() && id !in Ids(videos)
      modifies this`videos, this`playLists, this`playListSubscribers
      ensures Valid()
      ensures first == MaxSortOrder(old(videos), playListId).None?
      ensures videos == old(videos) + [Video(id, playListId, path, duration, NextSortOrder(old(videos), playListId))]
      ensures playLists == (if playListId in old(playLists) then old(playLists)
                            else old(playLists)[playListId := PlayList(id, true, path, 0.0, None, None, Some(duration))])
      ensures playListSubscribers == (if first && playListId !in old(playListSubscribers)
                                      then old(playListSubscribers)[playListId := []]
                                      else old(playListSubscribers))
    {
      var lastVideo := MaxSortOrder(videos, playListId);
      var media := Video(id, playListId, path, duration, if lastVideo.Some? then lastVideo.value + 1 else 1);
      AppendNextKeepsAscending(videos, media);
      assert Ids(videos + [media]) == Ids(videos) + [id];
      videos := videos + [media];
      if playListId !in playLists {
        playLists := playLists[playListId := PlayList(media.id, true, media.filePath, 0.0, None, None, Some(media.duration))];
      }
      first := lastVideo.None?;
      if first && playListId !in playListSubscribers {
        playListSubscribers := playListSubscribers[playListId := []];
      }
    }

    /** `POST /upload` (behind the bound `validateUser`), with the first-video
        notification delivered: stores the video with the next `sortOrder`,
        creates the playlist record if there is none, and, when this is the
        playlist's first video, sends `resp` to its subscribers. `id` is the
        value `nanoid()` produced and `duration` what probing the stored file
        gave. */
    method UploadRoute(authorization: Option<string>, file: Option<UploadedFile>,
                       id: string, playListId: string, duration: real)
      returns (status: int, sent: seq<Send>)
      requires Valid()
      modifies this`videos, this`playLists, this`playListSubscribers
      ensures Valid()
      ensures old(ValidateUser(authorization)) != Next ==>
        status == 400 && sent == [] && videos == old(videos)
        && playLists == old(playLists) && playListSubscribers == old(playListSubscribers)
      ensures old(ValidateUser(authorization)) == Next && file.None? ==>
        status == 404 && sent == [] && videos == old(videos)
        && playLists == old(playLists) && playListSubscribers == old(playListSubscribers)
      ensures old(ValidateUser(authorization)) == Next && file.Some? && id in old(Ids(videos)) ==>
        status == 500 && sent == [] && videos == old(videos)
        && playLists == old(playLists) && playListSubscribers == old(playListSubscribers)
      ensures old(ValidateUser(authorization)) == Next && file.Some? && id !in old(Ids(videos)) ==>
        var path := SavePath(id, file.value.name);
        var first := MaxSortOrder(old(videos), playListId).None?;
        && status == 200
        && videos == old(videos) + [Video(id, playListId, path, duration, NextSortOrder(old(videos), playListId))]
        && playLists == (if playListId in old(playLists) then old(playLists)
                         else old(playLists)[playListId := PlayList(id, true, path, 0.0, None, None, Some(duration))])
        && playListSubscribers == (if first && playListId !in old(playListSubscribers)
                                   then old(playListSubscribers)[playListId := []]
                                   else old(playListSubscribers))
        && sent == (if first
                    then FanOut(if playListId in old(playListSubscribers) then old(playListSubscribers)[playListId] else [],
                                Resp(playListId, id, true, path, 0.0, None, Some(duration)))
                    else [])
    {
      sent := [];
      var gate := ValidateUser(authorization);
      if gate != Next {
        return gate.status, sent;
      }
      if file.None? {
        return 404, sent;
      }
      var savePath := SavePath(id, file.value.name);
      if IndexOf(Ids(videos), id) >= 0 {
        // the row cannot be created: its primary key is taken
        return 500, sent;
      }
      var first := StoreUpload(id, playListId, savePath, duration);
      if first {
        sent := SendToAll(playListSubscribers[playListId], Resp(playListId, id, true, savePath, 0.0, None, Some(duration)));
      }
      status := 200;
    }

    /** `POST /upload` as written, behind the bound `validateUser` so that the
        route is reached at all: the first-video notification calls `emit` on
        each subscriber, but a room client offers `send` and no `emit`, so the
        first call throws. The catch answers 500 after the video row and the
        playlist record are already written, and nobody is told. With no
        subscriber the loop body never runs and the route answers 200. */
    method UploadRouteAsWritten(authorization: Option<string>, file: Option<UploadedFile>,
                                id: string, playListId: string, duration: real)
      returns (status: int, sent: seq<Send>)
      requires Valid()
      modifies this`videos, this`playLists, this`playListSubscribers
      ensures Valid()
      ensures sent == []
      ensures old(ValidateUser(authorization)) != Next ==>
        status == 400 && videos == old(videos)
        && playLists == old(playLists) && playListSubscribers == old(playListSubscribers)
      ensures old(ValidateUser(authorization)) == Next && file.None? ==>
        status == 404 && videos == old(videos)
        && playLists == old(playLists) && playListSubscribers == old(playListSubscribers)
      ensures old(ValidateUser(authorization)) == Next && file.Some? && id in old(Ids(videos)) ==>
        status == 500 && videos == old(videos)
        && playLists == old(playLists) && playListSubscribers == old(playListSubscribers)
      ensures old(ValidateUser(authorization)) == Next && file.Some? && id !in old(Ids(videos)) ==>
        var path := SavePath(id, file.value.name);
        var first := MaxSortOrder(old(videos), playListId).None?;
        var subscribers := if playListId in old(playListSubscribers) then old(playListSubscribers)[playListId] else [];
        && videos == old(videos) + [Video(id, playListId, path, duration, NextSortOrder(old(videos), playListId))]
        && playLists == (if playListId in old(playLists) then old(playLists)
                         else old(playLists)[playListId := PlayList(id, true, path, 0.0, None, None, Some(duration))])
        && playListSubscribers == (if first && playListId !in old(playListSubscribers)
                                   then old(playListSubscribers)[playListId := []]
                                   else old(playListSubscribers))
        && status == (if first && subscribers != [] then 500 else 200)
    {
      sent := [];
      var gate := ValidateUser(authorization);
      if gate != Next {
        return gate.status, sent;
      }
      if file.None? {
        return 404, sent;
      }
      var savePath := SavePath(id, file.value.name);
      if IndexOf(Ids(videos), id) >= 0 {
        return 500, sent;
      }
      var first := StoreUpload(id, playListId, savePath, duration);
      status := 200;
      if first && playListSubscribers[playListId] != [] {
        // `currentPlayListSubscriber.emit(...)` throws on the first subscriber
        status := 500;
      }
    }

    /** `DELETE /:id` (behind the bound `validateUser`): only records the id
        as pending deletion. */
    method DeleteRoute(authorization: Option<string>, id: string) returns (status: int)
      requires Valid()
      modifies this`deletingMediaIds
      ensures Valid()
      ensures old(ValidateUser(authorization)) != Next ==>
        status == 400 && deletingMediaIds == old(deletingMediaIds)
      ensures old(ValidateUser(authorization)) == Next ==>
        status == 200 && deletingMediaIds == old(deletingMediaIds) + [id]
    {
      var gate := ValidateUser(authorization);
      if gate != Next {
        return gate.status;
      }
      deletingMediaIds := deletingMediaIds + [id];
      status := 200;
    }

    /** `GET /:playListId`: the playlist's videos in ascending `sortOrder`,
        with those pending deletion spliced out by a backwards index loop. */
    method GetPlayList(playListId: string) returns (list: seq<Video>)
      requires Valid()
      ensures list == Listed(videos, deletingMediaIds, playListId)
      ensures forall v :: v in list <==> v in videos && v.playListId == playListId && v.id !in deletingMediaIds
      ensures StrictlySorted(list)
    {
      list := OfPlayList(videos, playListId);
      ghost var all := list;
      var index := |list| - 1;
      while index >= 0
        invariant -1 <= index < |all|
        invariant list == all[..index + 1] + Kept(all[index + 1..], deletingMediaIds)
      {
        SpliceStep(list, all, index, deletingMediaIds);
        var video := list[index];
        if IndexOf(deletingMediaIds, video.id) >= 0 {
          list := list[..index] + list[index + 1..];
        }
        index := index - 1;
      }
      assert all[0..] == all;
      ListedSpec(videos, deletingMediaIds, playListId);
    }
  }
}
