/** The StreamVerse page: channel playback with automatic fallback from a
    failing stream to the channel's alternative sources and then to the next
    channel, plus the search history, the view counts and the type badges.

    The page runs callbacks later (the rest of `playChannel` after its fetch,
    the timers of `playChannelSource` and `handleStreamFailure`, the video
    element's error handler). The model keeps the scheduled ones in the
    queue `pending`; each `Fire…` method is one of them running. */
module Client {
  import opened Options
  import Queries

  type Listing = Queries.Listing

  /** A callback the page has scheduled and that runs later. */
  datatype Pending =
    | AlternativesFetch(channel: Listing)  // the rest of `playChannel` once its fetch settles
    | LoadTimeout                          // the 10-second check armed by `playChannelSource`
    | SwitchSource(alternative: Listing)   // the 1.5-second retry armed by `handleStreamFailure`
    | SwitchChannel                        // the 2-second channel switch armed by `handleStreamFailure`

  /** The player modal and its video element. */
  datatype Player = Player(visible: bool, src: string, title: string, errorHandlerSet: bool)

  /** The playback fields of the page object. */
  datatype Playback = Playback(
    channelIndex: int,
    channel: Option<Listing>,
    alternatives: seq<Listing>,
    alternativeIndex: int,
    closed: bool,
    autoSwitch: bool)

  /** The engagement fields, with what local storage holds of them. */
  datatype Engagement = Engagement(
    popular: map<string, int>,
    storedPopular: map<string, int>,
    viewed: int,
    history: seq<string>,
    storedHistory: seq<string>)

  const SwitchChannelMessage := "All sources failed. Trying next channel..."
  const SourcesExhaustedError := "All sources for this channel are unavailable."
  const NoMoreChannelsError := "No more channels available."

  /** The player title while a source plays: "<name> (<source>)". */
  function SourceTitle(source: Listing): string {
    source.name + " (" + source.source + ")"
  }

  /** The queue after the callback at `k` has run. */
  function Without(queue: seq<Pending>, k: nat): (r: seq<Pending>)
    requires k < |queue|
    ensures |r| == |queue| - 1
    ensures multiset(r) == multiset(queue) - multiset{queue[k]}
  {
    assert queue == queue[..k] + [queue[k]] + queue[k + 1..];
    queue[..k] + queue[k + 1..]
  }

  /** `(popular[id] || 0) + 1`: one more view of `id`, every other count kept. */
  function CountView(popular: map<string, int>, id: string): (r: map<string, int>)
    ensures r.Keys == popular.Keys + {id}
    ensures id in popular ==> r[id] == popular[id] + 1
    ensures id !in popular ==> r[id] == 1
    ensures forall other :: other in popular && other != id ==> r[other] == popular[other]
  {
    popular[id := (if id in popular then popular[id] else 0) + 1]
  }

  /** JavaScript's `%`: the remainder takes the sign of the dividend. */
  function JsRem(a: int, b: int): (r: int)
    requires b > 0
    ensures a >= 0 ==> 0 <= r < b && r == a % b
    ensures a < 0 ==> -b < r <= 0
  {
    if a >= 0 then a % b else -((-a) % b)
  }

  /** `(current + 1) % count` as `tryNextChannel` computes it; `None` stands for
      the NaN an empty channel list gives. */
  function NextChannelIndex(current: int, count: nat): (r: Option<int>)
    ensures r == None <==> count == 0
    ensures count > 0 && -1 <= current < count ==>
              0 <= r.value < count &&
              (current + 1 < count ==> r.value == current + 1) &&
              (current == count - 1 ==> r.value == 0) &&
              (r.value == current <==> count == 1 && current == 0)
  {
    if count == 0 then None else Some(JsRem(current + 1, count))
  }

  /** `history.filter(item => item !== query)`. */
  function RemoveAll(history: seq<string>, query: string): (r: seq<string>)
    ensures query !in r
    ensures |r| <= |history|
  {
    if history == [] then []
    else (if history[0] == query then [] else [history[0]]) + RemoveAll(history[1..], query)
  }

  /** The history after a search for `query`. */
  function PushQuery(history: seq<string>, query: string): seq<string> {
    if |query| > 2 then [query] + RemoveAll(history, query) else history
  }

  /** `history.slice(-10)`: the part of the history that is stored. */
  function LastTen(history: seq<string>): (r: seq<string>)
    ensures |r| == if |history| <= 10 then |history| else 10
    ensures r == history[|history| - |r|..]
  {
    if |history| <= 10 then history else history[|history| - 10..]
  }

  /** `a` is `b` with some entries left out, the others in the same order. */
  predicate Subsequence(a: seq<string>, b: seq<string>)
    decreases |b|
  {
    a == [] ||
    (b != [] && ((a[0] == b[0] && Subsequence(a[1..], b[1..])) || Subsequence(a, b[1..])))
  }

  lemma SubsequenceCons(x: string, a: seq<string>, b: seq<string>)
    requires Subsequence(a, b)
    ensures Subsequence([x] + a, [x] + b)
  {
    assert ([x] + a)[1..] == a && ([x] + b)[1..] == b;
  }

  lemma SubsequenceSkip(a: seq<string>, x: string, b: seq<string>)
    requires Subsequence(a, b)
    ensures Subsequence(a, [x] + b)
  {
    assert ([x] + b)[1..] == b;
  }

  /** Removing a query keeps every other entry, as often as it occurred and in
      the same order. */
  lemma {:induction false} RemoveAllSpec(history: seq<string>, query: string)
    ensures Subsequence(RemoveAll(history, query), history)
    ensures forall x :: x != query ==> multiset(RemoveAll(history, query))[x] == multiset(history)[x]
  {
    if history != [] {
      var h, rest := history[0], history[1..];
      RemoveAllSpec(rest, query);
      assert history == [h] + rest;
      if h == query {
        assert RemoveAll(history, query) == RemoveAll(rest, query);
        SubsequenceSkip(RemoveAll(rest, query), h, rest);
      } else {
        assert RemoveAll(history, query) == [h] + RemoveAll(rest, query);
        SubsequenceCons(h, RemoveAll(rest, query), rest);
      }
    }
  }

  /** `addToSearchHistory`: a query of at most two characters leaves the history
      alone; a longer one moves to the front, occurs there exactly once, and
      every other entry stays, in its order. */
  lemma PushQuerySpec(history: seq<string>, query: string)
    ensures |query| <= 2 ==> PushQuery(history, query) == history
    ensures |query| > 2 ==>
              var r := PushQuery(history, query);
              r[0] == query &&
              multiset(r)[query] == 1 &&
              Subsequence(r[1..], history) &&
              forall x :: x != query ==> multiset(r)[x] == multiset(history)[x]
  {
    if |query| > 2 {
      var rest := RemoveAll(history, query);
      RemoveAllSpec(history, query);
      assert PushQuery(history, query) == [query] + rest;
      assert ([query] + rest)[1..] == rest;
      assert query !in multiset(rest);
    }
  }

  /** What is stored is at most ten entries, the oldest ones, so once the history
      holds more than ten the query just searched for is not among them. */
  lemma NewestQueryNotStored(history: seq<string>, query: string)
    requires |query| > 2 && |PushQuery(history, query)| > 10
    ensures query !in LastTen(PushQuery(history, query))
  {
    var r := PushQuery(history, query);
    PushQuerySpec(history, query);
    assert r == [r[0]] + r[1..];
    assert query !in multiset(r[1..]);
    assert LastTen(r) == r[1..][|r| - 11..];
  }

  const Television := "\U{1F4FA}"

  /** The badge icon for each source type. */
  const TypeIcons: map<string, string> := map[
    "iptv" := "\U{1F4FA}",
    "radio" := "\U{1F4FB}",
    "webtv" := "\U{1F310}",
    "pluto" := "\U{1F3AC}",
    "tubi" := "\U{1F37F}",
    "samsung" := "\U{1F4F1}",
    "plex" := "\U{1F3AD}"]

  /** `getTypeIcon`: the type's icon, the television for any other type. */
  function GetTypeIcon(kind: string): (icon: string)
    ensures kind !in TypeIcons ==> icon == Television
    ensures kind in TypeIcons ==> icon == TypeIcons[kind]
    ensures |icon| == 1
  {
    if kind in TypeIcons then TypeIcons[kind] else Television
  }

  class StreamVerse {
    /** The channel list, as `/api/channels` gave it. */
    const channels: seq<Listing>
    var currentChannelIndex: int
    var currentChannel: Option<Listing>
    var currentAlternatives: seq<Listing>
    var currentAlternativeIndex: int
    var userClosedPlayer: bool
    var autoSwitchEnabled: bool
    var player: Player
    var pending: seq<Pending>
    /** The messages shown with `alert`, oldest first. */
    var alerts: seq<string>
    var popularChannels: map<string, int>
    var storedPopular: map<string, int>
    var channelsViewed: int
    var searchHistory: seq<string>
    var storedSearchHistory: seq<string>

    /** The current channel is the one at the current index, or none at -1. */
    predicate Valid()
      reads this
    {
      -1 <= currentChannelIndex < |channels| &&
      currentChannel == (if currentChannelIndex == -1 then None else Some(channels[currentChannelIndex])) &&
      0 <= currentAlternativeIndex
    }

    function State(): Playback
      reads this
    {
      Playback(currentChannelIndex, currentChannel, currentAlternatives, currentAlternativeIndex,
               userClosedPlayer, autoSwitchEnabled)
    }

    function Counts(): Engagement
      reads this
    {
      Engagement(popularChannels, storedPopular, channelsViewed, searchHistory, storedSearchHistory)
    }

    /** The alternative index points into the alternatives or just past them. */
    predicate AlternativeInRange()
      reads this
    {
      currentAlternativeIndex <= |currentAlternatives|
    }

    /** Nothing changed but the callback queue, which is now `queue`. */
    twostate predicate Idle(queue: seq<Pending>)
      reads this
    {
      State() == old(State()) && player == old(player) && alerts == old(alerts) &&
      Counts() == old(Counts()) && pending == queue
    }

    /** `showStreamError(message)` ran. */
    twostate predicate ErrorShown(message: string, queue: seq<Pending>)
      reads this
    {
      State() == old(State()) && player == old(player).(title := "Stream Error") &&
      alerts == old(alerts) + [message] && Counts() == old(Counts()) && pending == queue
    }

    /** `playChannelSource(source)` ran. */
    twostate predicate SourceShown(source: Listing, queue: seq<Pending>)
      reads this
    {
      if old(userClosedPlayer) then Idle(queue)
      else
        State() == old(State()) && player == Player(true, source.url, SourceTitle(source), true) &&
        alerts == old(alerts) && Counts() == old(Counts()) && pending == queue + [LoadTimeout]
    }

    /** `playChannel(index)` ran up to its fetch. */
    twostate predicate ChannelStarted(index: int, queue: seq<Pending>)
      reads this
    {
      if !(0 <= index < |channels|) then Idle(queue)
      else
        var channel := channels[index];
        var counts := CountView(old(popularChannels), channel.id);
        State() == old(State()).(channelIndex := index, channel := Some(channel), alternativeIndex := 0, closed := false) &&
        player == old(player) && alerts == old(alerts) &&
        Counts() == old(Counts()).(popular := counts, storedPopular := counts, viewed := old(channelsViewed) + 1) &&
        pending == queue + [AlternativesFetch(channel)]
    }

    /** `handleStreamFailure()` ran. */
    twostate predicate FailureHandled(queue: seq<Pending>)
      reads this
    {
      var i, alternatives := old(currentAlternativeIndex), old(currentAlternatives);
      if old(userClosedPlayer) then Idle(queue)
      else if 0 <= i < |alternatives| then
        State() == old(State()).(alternativeIndex := i + 1) &&
        player == old(player).(title := "Trying alternative source: " + alternatives[i].source) &&
        alerts == old(alerts) && Counts() == old(Counts()) &&
        pending == queue + [SwitchSource(alternatives[i])]
      else if old(autoSwitchEnabled) then
        State() == old(State()) && player == old(player).(title := SwitchChannelMessage) &&
        alerts == old(alerts) && Counts() == old(Counts()) && pending == queue + [SwitchChannel]
      else ErrorShown(SourcesExhaustedError, queue)
    }

    /** `tryNextChannel()` ran. */
    twostate predicate NextChannelTried(queue: seq<Pending>)
      reads this
    {
      if old(userClosedPlayer) then Idle(queue)
      else match NextChannelIndex(old(currentChannelIndex), |channels|)
        case None => Idle(queue)
        case Some(next) =>
          if next != old(currentChannelIndex) then ChannelStarted(next, queue)
          else ErrorShown(NoMoreChannelsError, queue)
    }

    /** A fresh page over the channel list, with the counts and the history
        read back from local storage (empty when nothing is stored). */
    constructor(channels: seq<Listing>, stored: Option<map<string, int>>, storedHistory: Option<seq<string>>)
      ensures Valid()
      ensures this.channels == channels
      ensures State() == Playback(-1, None, [], 0, false, true)
      ensures player == Player(false, "", "", false) && pending == [] && alerts == []
      ensures Counts() == Engagement(stored.GetOr(map[]), stored.GetOr(map[]), 0,
                                     storedHistory.GetOr([]), storedHistory.GetOr([]))
    {
      this.channels := channels;
      currentChannelIndex := -1;
      currentChannel := None;
      currentAlternatives := [];
      currentAlternativeIndex := 0;
      userClosedPlayer := false;
      autoSwitchEnabled := true;
      player := Player(false, "", "", false);
      pending := [];
      alerts := [];
      popularChannels := stored.GetOr(map[]);
      storedPopular := stored.GetOr(map[]);
      channelsViewed := 0;
      searchHistory := storedHistory.GetOr([]);
      storedSearchHistory := storedHistory.GetOr([]);
    }

    /** `trackChannelView`: one more view of the channel, stored at once. */
    method TrackChannelView(channelId: string)
      modifies this
      ensures Counts() == old(Counts()).(popular := CountView(old(popularChannels), channelId),
                                         storedPopular := CountView(old(popularChannels), channelId),
                                         viewed := old(channelsViewed) + 1)
      ensures State() == old(State()) && player == old(player) && alerts == old(alerts) && pending == old(pending)
    {
      popularChannels := CountView(popularChannels, channelId);
      storedPopular := popularChannels;
      channelsViewed := channelsViewed + 1;
    }

    /** `saveSearchHistory`: store the last ten entries. */
    method SaveSearchHistory()
      modifies this
      ensures Counts() == old(Counts()).(storedHistory := LastTen(old(searchHistory)))
      ensures State() == old(State()) && player == old(player) && alerts == old(alerts) && pending == old(pending)
    {
      storedSearchHistory := LastTen(searchHistory);
    }

    /** `addToSearchHistory`: queries longer than two characters move to the
        front of the history, which is then stored. */
    method AddToSearchHistory(query: string)
      modifies this
      ensures |query| <= 2 ==> Counts() == old(Counts())
      ensures |query| > 2 ==>
                Counts() == old(Counts()).(history := PushQuery(old(searchHistory), query),
                                           storedHistory := LastTen(PushQuery(old(searchHistory), query)))
      ensures State() == old(State()) && player == old(player) && alerts == old(alerts) && pending == old(pending)
    {
      if |query| > 2 {
        searchHistory := RemoveAll(searchHistory, query);
        searchHistory := [query] + searchHistory;
        SaveSearchHistory();
      }
    }

    /** `playChannel(index)` up to its fetch of the alternatives: no channel at
        `index` changes nothing; otherwise the view is counted, the channel
        becomes current from its first alternative on, a close is forgotten,
        and the rest of the call waits for the fetch. */
    method PlayChannel(index: int)
      requires Valid()
      modifies this
      ensures Valid()
      ensures ChannelStarted(index, old(pending))
      ensures !(0 <= index < |channels|) ==> unchanged(this)
    {
      if !(0 <= index < |channels|) {
        return;
      }
      var channel := channels[index];
      TrackChannelView(channel.id);
      currentChannelIndex := index;
      currentChannel := Some(channel);
      currentAlternativeIndex := 0;
      userClosedPlayer := false;
      pending := pending + [AlternativesFetch(channel)];
    }

    /** `loadChannelAlternatives`: the fetched list, or none when the fetch or
        its JSON failed or the body had no `alternatives`. */
    method LoadChannelAlternatives(fetched: Option<seq<Listing>>)
      modifies this
      ensures State() == old(State()).(alternatives := fetched.GetOr([]))
      ensures player == old(player) && alerts == old(alerts) && Counts() == old(Counts()) && pending == old(pending)
    {
      currentAlternatives := fetched.GetOr([]);
    }

    /** `playChannelSource(source)`: nothing once the user closed the player;
        otherwise the source plays and a load timeout is armed. */
    method PlayChannelSource(source: Listing)
      modifies this
      ensures SourceShown(source, old(pending))
    {
      if userClosedPlayer {
        return;
      }
      player := Player(true, source.url, SourceTitle(source), true);
      pending := pending + [LoadTimeout];
    }

    /** `showSwitchingMessage(message)`. */
    method ShowSwitchingMessage(message: string)
      modifies this
      ensures State() == old(State()) && player == old(player).(title := message)
      ensures alerts == old(alerts) && Counts() == old(Counts()) && pending == old(pending)
    {
      player := player.(title := message);
    }

    /** `showStreamError(message)`. */
    method ShowStreamError(message: string)
      modifies this
      ensures ErrorShown(message, old(pending))
    {
      player := player.(title := "Stream Error");
      alerts := alerts + [message];
    }

    /** `handleStreamFailure()`: the next alternative is scheduled while one is
        left, then the next channel when auto-switch is on, else an error. The
        alternative index grows by one at most and stays within the list when
        it was. */
    method HandleStreamFailure()
      requires Valid()
      modifies this
      ensures Valid()
      ensures FailureHandled(old(pending))
      ensures old(AlternativeInRange()) ==> AlternativeInRange()
    {
      if userClosedPlayer {
        return;
      }
      if currentAlternativeIndex < |currentAlternatives| {
        var next := currentAlternatives[currentAlternativeIndex];
        currentAlternativeIndex := currentAlternativeIndex + 1;
        ShowSwitchingMessage("Trying alternative source: " + next.source);
        pending := pending + [SwitchSource(next)];
        return;
      }
      if autoSwitchEnabled {
        ShowSwitchingMessage(SwitchChannelMessage);
        pending := pending + [SwitchChannel];
      } else {
        ShowStreamError(SourcesExhaustedError);
      }
    }

    /** `tryNextChannel()`: the channel after the current one, wrapping round;
        an error when that is the current one again. */
    method TryNextChannel()
      requires Valid()
      modifies this
      ensures Valid()
      ensures NextChannelTried(old(pending))
    {
      if userClosedPlayer {
        return;
      }
      var next := NextChannelIndex(currentChannelIndex, |channels|);
      match next {
        case None =>
        case Some(n) =>
          if n != currentChannelIndex {
            PlayChannel(n);
          } else {
            ShowStreamError(NoMoreChannelsError);
          }
      }
    }

    /** `closeVideoPlayer()`: the player hides and stops, the playback state is
        reset, and every callback still scheduled will find the player closed. */
    method CloseVideoPlayer()
      requires Valid()
      modifies this
      ensures Valid()
      ensures State() == Playback(-1, None, [], 0, true, old(autoSwitchEnabled))
      ensures player == old(player).(visible := false, src := "")
      ensures alerts == old(alerts) && Counts() == old(Counts()) && pending == old(pending)
    {
      userClosedPlayer := true;
      player := player.(visible := false, src := "");
      currentChannelIndex := -1;
      currentChannel := None;
      currentAlternatives := [];
      currentAlternativeIndex := 0;
    }

    /** The fetch of `playChannel` settles: the alternatives are stored (even
        after a close) and the channel's own source plays unless the player was
        closed meanwhile. */
    method FinishPlayChannel(k: nat, fetched: Option<seq<Listing>>)
      requires Valid() && k < |pending| && pending[k].AlternativesFetch?
      modifies this
      ensures Valid()
      ensures currentAlternatives == fetched.GetOr([])
      ensures old(userClosedPlayer) ==>
                State() == old(State()).(alternatives := fetched.GetOr([])) && player == old(player) &&
                alerts == old(alerts) && Counts() == old(Counts()) && pending == Without(old(pending), k)
      ensures !old(userClosedPlayer) ==>
                State() == old(State()).(alternatives := fetched.GetOr([])) &&
                player == Player(true, old(pending[k].channel.url), SourceTitle(old(pending[k].channel)), true) &&
                alerts == old(alerts) && Counts() == old(Counts()) &&
                pending == Without(old(pending), k) + [LoadTimeout]
    {
      var channel := pending[k].channel;
      pending := Without(pending, k);
      LoadChannelAlternatives(fetched);
      PlayChannelSource(channel);
    }

    /** The video element reports an error: a failure unless the user closed
        the player. */
    method FirePlayerError()
      requires Valid() && player.errorHandlerSet
      modifies this
      ensures Valid()
      ensures old(userClosedPlayer) ==> unchanged(this)
      ensures FailureHandled(old(pending))
    {
      if !userClosedPlayer {
        HandleStreamFailure();
      }
    }

    /** The 10-second timer runs: a failure when nothing has loaded yet and the
        user has not closed the player. */
    method FireLoadTimeout(k: nat, nothingLoaded: bool)
      requires Valid() && k < |pending| && pending[k] == LoadTimeout
      modifies this
      ensures Valid()
      ensures old(userClosedPlayer) || !nothingLoaded ==> Idle(Without(old(pending), k))
      ensures nothingLoaded ==> FailureHandled(Without(old(pending), k))
    {
      pending := Without(pending, k);
      if nothingLoaded && !userClosedPlayer {
        HandleStreamFailure();
      }
    }

    /** The 1.5-second timer runs: the alternative plays unless the user closed
        the player. */
    method FireSwitchSource(k: nat)
      requires Valid() && k < |pending| && pending[k].SwitchSource?
      modifies this
      ensures Valid()
      ensures SourceShown(old(pending[k].alternative), Without(old(pending), k))
    {
      var alternative := pending[k].alternative;
      pending := Without(pending, k);
      if !userClosedPlayer {
        PlayChannelSource(alternative);
      }
    }

    /** The 2-second timer runs: the next channel is tried unless the user
        closed the player. */
    method FireSwitchChannel(k: nat)
      requires Valid() && k < |pending| && pending[k] == SwitchChannel
      modifies this
      ensures Valid()
      ensures NextChannelTried(Without(old(pending), k))
    {
      pending := Without(pending, k);
      if !userClosedPlayer {
        TryNextChannel();
      }
    }
  }
}
