/**
 * The music cog (cogs/music.py): per-guild playback state, the enqueue loop of
 * the `play` command, the guild-state registry and the `queue` listing.
 *
 * Discord and FFmpeg are effects: a transition returns the `Effect` it asks of
 * the voice connection, and whether starting playback raised is a parameter.
 */
module MusicCog {
  import opened Wrappers

  type GuildId = nat

  /** The audio extensions a stream URL must mention to be queued. */
  const ValidFormats: seq<string> := ["webm", "opus", "m4a", "mp3", "ogg", "wav", "aac", "flac"]

  const UnknownTitle: string := "Unknown Title"

  /** How many upcoming songs the `queue` command lists. */
  const ListedSongs: nat := 10

  datatype Song = Song(url: string, title: string, requester: string)
  {
    /** A new song with the same fields. */
    function Copy(): Song
    {
      Song(url, title, requester)
    }
  }

  datatype RepeatMode = Off | On

  /** An open voice connection, known only by identity. */
  datatype VoiceClient = VoiceClient(id: nat)

  /** What a transition asks of the voice connection. */
  datatype Effect =
    | NoEffect
    | Disconnect(client: VoiceClient)
    | StartPlaying(song: Song, onRepeat: bool)

  // ---------------------------------------------------------------------------
  // Playback state as a value, and its transitions
  // ---------------------------------------------------------------------------

  /** The fields of one guild's music state. */
  datatype Playback = Playback(
    queue: seq<Song>,
    current: Option<Song>,
    voiceClient: Option<VoiceClient>,
    repeatMode: RepeatMode,
    repeatSong: Option<Song>)

  datatype Step = Step(next: Playback, effect: Effect)

  /** A freshly created guild state. */
  const Initial: Playback := Playback([], None, None, Off, None)

  /** A song to repeat is only remembered while repeat is on. */
  predicate RepeatConsistent(p: Playback)
  {
    p.repeatMode == Off ==> p.repeatSong == None
  }

  function Toggled(p: Playback): Playback
  {
    if p.repeatMode == Off then
      p.(repeatMode := On, repeatSong := if p.current.Some? then Some(p.current.value.Copy()) else None)
    else
      p.(repeatMode := Off, repeatSong := None)
  }

  function CleanedUp(p: Playback): Step
  {
    Step(p.(queue := [], current := None, repeatSong := None, voiceClient := None),
         if p.voiceClient.Some? then Disconnect(p.voiceClient.value) else NoEffect)
  }

  /**
   * Hand `song`, already made current in `p`, to the voice client; when that
   * raises (or there is no voice client to call) the state is cleaned up.
   */
  function StartOrCleanUp(p: Playback, song: Song, onRepeat: bool, playFails: bool): Step
  {
    if playFails || p.voiceClient.None? then CleanedUp(p)
    else Step(p, StartPlaying(song, onRepeat))
  }

  /** What happens when a song finishes (`error` tells whether it failed). */
  function AfterSong(p: Playback, error: bool, playFails: bool): Step
  {
    if error then CleanedUp(p)
    else if p.repeatMode == On && p.repeatSong.Some? then
      var song := p.repeatSong.value.Copy();
      StartOrCleanUp(p.(current := Some(song)), song, true, playFails)
    else if p.queue != [] then
      StartOrCleanUp(p.(current := Some(p.queue[0]), queue := p.queue[1..]), p.queue[0], false, playFails)
    else CleanedUp(p)
  }

  lemma ToggleFromOff(p: Playback)
    requires p.repeatMode == Off
    ensures Toggled(p).repeatMode == On
    ensures Toggled(p).repeatSong == p.current
    ensures Toggled(p).queue == p.queue && Toggled(p).current == p.current
    ensures Toggled(p).voiceClient == p.voiceClient
  {
  }

  lemma ToggleFromOn(p: Playback)
    requires p.repeatMode == On
    ensures Toggled(p) == p.(repeatMode := Off, repeatSong := None)
  {
  }

  /** Two toggles from `off` come back to `off` with nothing to repeat. */
  lemma ToggleTwice(p: Playback)
    requires p.repeatMode == Off
    ensures Toggled(Toggled(p)) == p.(repeatSong := None)
    ensures RepeatConsistent(p) ==> Toggled(Toggled(p)) == p
  {
  }

  lemma CleanupClears(p: Playback)
    ensures CleanedUp(p).next.queue == [] && CleanedUp(p).next.current == None
    ensures CleanedUp(p).next.repeatSong == None && CleanedUp(p).next.voiceClient == None
    ensures CleanedUp(p).next.repeatMode == p.repeatMode
    ensures CleanedUp(p).effect.Disconnect? <==> p.voiceClient.Some?
  {
  }

  /** A second cleanup changes nothing and disconnects nothing. */
  lemma CleanupIdempotent(p: Playback)
    ensures CleanedUp(CleanedUp(p).next) == Step(CleanedUp(p).next, NoEffect)
  {
  }

  lemma AfterErrorIsCleanup(p: Playback, playFails: bool)
    ensures AfterSong(p, true, playFails) == CleanedUp(p)
  {
  }

  /** With repeat on and a song to repeat, that song plays again and the queue waits. */
  lemma AfterSongRepeats(p: Playback)
    requires p.repeatMode == On && p.repeatSong.Some? && p.voiceClient.Some?
    ensures AfterSong(p, false, false).next == p.(current := p.repeatSong)
    ensures AfterSong(p, false, false).effect == StartPlaying(p.repeatSong.value, true)
  {
  }

  /** Otherwise the head of the queue becomes current: the queue is FIFO. */
  lemma AfterSongAdvances(p: Playback)
    requires !(p.repeatMode == On && p.repeatSong.Some?)
    requires p.queue != [] && p.voiceClient.Some?
    ensures AfterSong(p, false, false).next.current == Some(p.queue[0])
    ensures AfterSong(p, false, false).next.queue == p.queue[1..]
    ensures AfterSong(p, false, false).effect == StartPlaying(p.queue[0], false)
  {
  }

  lemma AfterSongEmptyQueue(p: Playback, playFails: bool)
    requires !(p.repeatMode == On && p.repeatSong.Some?) && p.queue == []
    ensures AfterSong(p, false, playFails) == CleanedUp(p)
  {
  }

  /** Whatever raised while starting playback, the guild ends up as after a cleanup. */
  lemma AfterSongFailureCleansUp(p: Playback, error: bool, playFails: bool)
    requires !AfterSong(p, error, playFails).effect.StartPlaying?
    ensures AfterSong(p, error, playFails).next == CleanedUp(p).next
  {
  }

  lemma TransitionsKeepRepeatConsistent(p: Playback, error: bool, playFails: bool)
    ensures RepeatConsistent(Toggled(p))
    ensures RepeatConsistent(CleanedUp(p).next)
    ensures RepeatConsistent(p) ==> RepeatConsistent(AfterSong(p, error, playFails).next)
  {
  }

  // ---------------------------------------------------------------------------
  // Choosing a stream and queueing the entries of `play`
  // ---------------------------------------------------------------------------

  /** One format of an extracted video; a missing key is `None`. */
  datatype Format = Format(acodec: Option<string>, vcodec: Option<string>, url: Option<string>)

  /** One extracted video; a missing `formats` key is the empty list. */
  datatype Entry = Entry(formats: seq<Format>, title: Option<string>)

  /** What the extractor returned: one video, or a playlist whose entries may be missing. */
  datatype Info = Video(entry: Entry) | Playlist(entries: seq<Option<Entry>>)

  function EntriesOf(info: Info): seq<Option<Entry>>
  {
    match info
    case Video(e) => [Some(e)]
    case Playlist(es) => es
  }

  /** A format with audio and no video. */
  predicate AudioOnly(f: Format)
  {
    f.acodec != Some("none") && f.vcodec == Some("none")
  }

  /** Index of the first audio-only format, or `|formats|` when there is none. */
  function FirstAudioOnly(formats: seq<Format>): (k: nat)
    ensures k <= |formats|
    ensures forall j :: 0 <= j < k ==> !AudioOnly(formats[j])
    ensures k < |formats| ==> AudioOnly(formats[k])
  {
    if formats == [] then 0
    else if AudioOnly(formats[0]) then 0
    else 1 + FirstAudioOnly(formats[1..])
  }

  /** The first audio-only format, if any. */
  function SelectFormat(formats: seq<Format>): Option<Format>
  {
    var k := FirstAudioOnly(formats);
    if k < |formats| then Some(formats[k]) else None
  }

  /** Python's substring test `part in s`. */
  predicate Contains(s: string, part: string)
    decreases |s|
  {
    part <= s || (s != [] && Contains(s[1..], part))
  }

  predicate HasValidExtension(url: string)
  {
    exists ext :: ext in ValidFormats && Contains(url, ext)
  }

  /** What one entry does to the queue: nothing, one song, or an exception (no `url` in the chosen format). */
  datatype EntryOutcome = Skip | Add(song: Song) | Raise

  function EntrySong(entry: Option<Entry>, requester: string): EntryOutcome
  {
    if entry.None? then Skip
    else
      match SelectFormat(entry.value.formats)
      case None => Skip
      case Some(f) =>
        match f.url
        case None => Raise
        case Some(u) =>
          if HasValidExtension(u) then
            Add(Song(u, if entry.value.title.Some? then entry.value.title.value else UnknownTitle, requester))
          else Skip
  }

  /** The songs the enqueue loop appends, and whether it stopped on an exception. */
  datatype Enqueued = Enqueued(songs: seq<Song>, raised: bool)

  function Enqueue(entries: seq<Option<Entry>>, requester: string): Enqueued
  {
    if entries == [] then Enqueued([], false)
    else
      var before := Enqueue(entries[..|entries| - 1], requester);
      if before.raised then before
      else
        match EntrySong(entries[|entries| - 1], requester)
        case Skip => before
        case Add(s) => Enqueued(before.songs + [s], false)
        case Raise => Enqueued(before.songs, true)
  }

  /**
   * An entry yields a song exactly when its first audio-only format has a URL
   * mentioning a known extension; the song streams that URL.
   */
  lemma EntrySongSpec(e: Entry, requester: string)
    ensures EntrySong(Some(e), requester).Add? <==>
      exists k :: 0 <= k < |e.formats| && AudioOnly(e.formats[k]) &&
        (forall j :: 0 <= j < k ==> !AudioOnly(e.formats[j])) &&
        e.formats[k].url.Some? && HasValidExtension(e.formats[k].url.value)
    ensures EntrySong(Some(e), requester).Add? ==>
      EntrySong(Some(e), requester).song.url == e.formats[FirstAudioOnly(e.formats)].url.value &&
      EntrySong(Some(e), requester).song.requester == requester
  {
  }

  /** Every queued song streams a URL with a known extension, for the requester, one per entry at most. */
  lemma {:induction false} EnqueueSound(entries: seq<Option<Entry>>, requester: string)
    ensures |Enqueue(entries, requester).songs| <= |entries|
    ensures forall s :: s in Enqueue(entries, requester).songs ==> HasValidExtension(s.url) && s.requester == requester
  {
    if entries != [] {
      EnqueueSound(entries[..|entries| - 1], requester);
    }
  }

  /** Once an entry raised, later entries are never looked at. */
  lemma {:induction false} EnqueueStopsAtRaise(a: seq<Option<Entry>>, b: seq<Option<Entry>>, requester: string)
    requires Enqueue(a, requester).raised
    ensures Enqueue(a + b, requester) == Enqueue(a, requester)
  {
    if b == [] {
      assert a + b == a;
    } else {
      var b' := b[..|b| - 1];
      assert (a + b)[..|a + b| - 1] == a + b';
      EnqueueStopsAtRaise(a, b', requester);
    }
  }

  /** Songs are appended in entry order: the result for `a + b` continues the result for `a`. */
  lemma {:induction false} EnqueueInOrder(a: seq<Option<Entry>>, b: seq<Option<Entry>>, requester: string)
    requires !Enqueue(a, requester).raised
    ensures Enqueue(a + b, requester) ==
      Enqueued(Enqueue(a, requester).songs + Enqueue(b, requester).songs, Enqueue(b, requester).raised)
  {
    if b == [] {
      assert a + b == a;
    } else {
      var b' := b[..|b| - 1];
      assert (a + b)[..|a + b| - 1] == a + b';
      EnqueueInOrder(a, b', requester);
    }
  }

  // ---------------------------------------------------------------------------
  // The `queue` listing
  // ---------------------------------------------------------------------------

  predicate IsDigit(c: char)
  {
    '0' <= c <= '9'
  }

  predicate AllDigits(s: string)
  {
    forall k :: 0 <= k < |s| ==> IsDigit(s[k])
  }

  function DigitChar(d: nat): char
    requires d < 10
  {
    ('0' as int + d) as char
  }

  /** Python's `str` of a non-negative integer. */
  function NatToString(n: nat): (s: string)
    ensures s != [] && AllDigits(s)
  {
    if n < 10 then [DigitChar(n)] else NatToString(n / 10) + [DigitChar(n % 10)]
  }

  /** The value of a string of decimal digits. */
  function DigitsValue(s: string): nat
    requires AllDigits(s)
  {
    if s == [] then 0 else 10 * DigitsValue(s[..|s| - 1]) + (s[|s| - 1] as int - '0' as int)
  }

  /** The longest prefix of `s` made of digits. */
  function LeadingDigits(s: string): (d: string)
    ensures AllDigits(d) && d <= s
  {
    if s != [] && IsDigit(s[0]) then [s[0]] + LeadingDigits(s[1..]) else []
  }

  /** The number a line of the listing starts with. */
  function LeadingNumber(line: string): nat
  {
    DigitsValue(LeadingDigits(line))
  }

  lemma {:induction false} NatToStringRoundTrip(n: nat)
    ensures DigitsValue(NatToString(n)) == n
  {
    if n >= 10 {
      NatToStringRoundTrip(n / 10);
      var s := NatToString(n);
      assert s[..|s| - 1] == NatToString(n / 10);
    }
  }

  lemma {:induction false} LeadingDigitsOfNumber(d: string, rest: string)
    requires AllDigits(d)
    requires rest == [] || !IsDigit(rest[0])
    ensures LeadingDigits(d + rest) == d
  {
    if d == [] {
      assert d + rest == rest;
    } else {
      assert (d + rest)[1..] == d[1..] + rest;
      LeadingDigitsOfNumber(d[1..], rest);
    }
  }

  /** One listed song: its position, title and requester. */
  function QueueLine(number: nat, song: Song): string
  {
    NatToString(number) + ". " + song.title + " (requested by " + song.requester + ")"
  }

  /** Each song of `songs` on its own line, numbered from `first`. */
  function NumberedLines(songs: seq<Song>, first: nat): seq<string>
  {
    if songs == [] then [] else [QueueLine(first, songs[0])] + NumberedLines(songs[1..], first + 1)
  }

  /** The upcoming-songs field: at most the first ten songs, numbered from 1. */
  function UpcomingLines(queue: seq<Song>): seq<string>
  {
    NumberedLines(if |queue| <= ListedSongs then queue else queue[..ListedSongs], 1)
  }

  lemma {:induction false} NumberedLinesAt(songs: seq<Song>, first: nat)
    ensures |NumberedLines(songs, first)| == |songs|
    ensures forall i :: 0 <= i < |songs| ==> NumberedLines(songs, first)[i] == QueueLine(first + i, songs[i])
  {
    if songs != [] {
      NumberedLinesAt(songs[1..], first + 1);
    }
  }

  /** The listing shows the first ten songs of the queue (or all of them), in queue order. */
  lemma UpcomingListing(queue: seq<Song>)
    ensures |UpcomingLines(queue)| == if |queue| <= ListedSongs then |queue| else ListedSongs
    ensures forall i :: 0 <= i < |UpcomingLines(queue)| ==> UpcomingLines(queue)[i] == QueueLine(i + 1, queue[i])
  {
    NumberedLinesAt(if |queue| <= ListedSongs then queue else queue[..ListedSongs], 1);
  }

  /** The line listed at position `i` reads back as number `i + 1`. */
  lemma UpcomingLineNumber(queue: seq<Song>, i: nat)
    requires i < |UpcomingLines(queue)|
    ensures LeadingNumber(UpcomingLines(queue)[i]) == i + 1
  {
    UpcomingListing(queue);
    var line := QueueLine(i + 1, queue[i]);
    var rest := ". " + queue[i].title + " (requested by " + queue[i].requester + ")";
    assert line == NatToString(i + 1) + rest;
    LeadingDigitsOfNumber(NatToString(i + 1), rest);
    NatToStringRoundTrip(i + 1);
  }

  /** The upcoming-songs field: the queue length and the listed lines. */
  datatype Upcoming = Upcoming(total: nat, lines: seq<string>)

  /** The embed the `queue` command sends. */
  datatype QueueView = QueueView(nowPlaying: Option<string>, upcoming: Option<Upcoming>)

  function ViewQueue(p: Playback): QueueView
  {
    QueueView(
      if p.current.Some? then Some("**" + p.current.value.title + "** (requested by " + p.current.value.requester + ")") else None,
      if p.queue != [] then Some(Upcoming(|p.queue|, UpcomingLines(p.queue))) else None)
  }

  // ---------------------------------------------------------------------------
  // The `play` command, after the voice connection is set
  // ---------------------------------------------------------------------------

  /** How the `play` command ends. */
  datatype PlayReply =
    | NotInVoice
    | NoInfo
    | Raised
    | NothingPlayable
    | NowPlaying(effect: Effect)
    | AddedToQueue(count: nat)

  function PlayTransition(p: Playback, connection: VoiceClient, info: Option<Info>, requester: string,
                          alreadyPlaying: bool, playFails: bool): (Playback, PlayReply)
  {
    var connected := p.(voiceClient := Some(connection));
    if info.None? then (connected, NoInfo)
    else
      var e := Enqueue(EntriesOf(info.value), requester);
      var queued := connected.(queue := connected.queue + e.songs);
      if e.raised then (queued, Raised)
      else if e.songs == [] then (queued, NothingPlayable)
      else if alreadyPlaying then (queued, AddedToQueue(|e.songs|))
      else
        var s := AfterSong(queued, false, playFails);
        (s.next, NowPlaying(s.effect))
  }

  /** The reported count is exactly how much the queue grew. */
  lemma PlayQueuesAddedSongs(p: Playback, connection: VoiceClient, info: Option<Info>, requester: string, playFails: bool)
    requires PlayTransition(p, connection, info, requester, true, playFails).1.AddedToQueue?
    ensures var (q, reply) := PlayTransition(p, connection, info, requester, true, playFails);
      |q.queue| == |p.queue| + reply.count && q.queue[..|p.queue|] == p.queue
  {
  }

  /**
   * On an idle guild with repeat off and an empty queue, `play` starts the
   * first playable entry and keeps the rest queued in entry order.
   */
  lemma PlayStartsFirstSong(p: Playback, connection: VoiceClient, info: Info, requester: string)
    requires p.queue == [] && p.repeatMode == Off
    requires !Enqueue(EntriesOf(info), requester).raised && Enqueue(EntriesOf(info), requester).songs != []
    ensures var (q, reply) := PlayTransition(p, connection, Some(info), requester, false, false);
      var songs := Enqueue(EntriesOf(info), requester).songs;
      q.current == Some(songs[0]) && q.queue == songs[1..] &&
      q.voiceClient == Some(connection) && reply == NowPlaying(StartPlaying(songs[0], false))
  {
    var songs := Enqueue(EntriesOf(info), requester).songs;
    assert [] + songs == songs;
  }

  // ---------------------------------------------------------------------------
  // The stateful objects
  // ---------------------------------------------------------------------------

  class GuildMusicState {
    var queue: seq<Song>
    var current: Option<Song>
    var voiceClient: Option<VoiceClient>
    var repeatMode: RepeatMode
    var repeatSong: Option<Song>

    function State(): Playback
      reads this
    {
      Playback(queue, current, voiceClient, repeatMode, repeatSong)
    }

    constructor ()
      ensures State() == Initial
    {
      queue := [];
      current := None;
      voiceClient := None;
      repeatMode := Off;
      repeatSong := None;
    }

    /** Switch repeat on (remembering a copy of the current song) or off. */
    method ToggleRepeat()
      modifies this
      ensures State() == Toggled(old(State()))
      ensures RepeatConsistent(State())
    {
      if repeatMode == Off {
        repeatMode := On;
        repeatSong := if current.Some? then Some(current.value.Copy()) else None;
      } else {
        repeatMode := Off;
        repeatSong := None;
      }
    }

    /** Stop playback: empty the queue, forget the songs, disconnect. */
    method Cleanup() returns (effect: Effect)
      modifies this
      ensures Step(State(), effect) == CleanedUp(old(State()))
    {
      queue := [];
      current := None;
      repeatSong := None;
      effect := NoEffect;
      if voiceClient.Some? {
        effect := Disconnect(voiceClient.value);
        voiceClient := None;
      }
    }

    /** Continue after a song ended: repeat it, play the next one, or clean up. */
    method CheckQueue(error: bool, playFails: bool) returns (effect: Effect)
      modifies this
      ensures Step(State(), effect) == AfterSong(old(State()), error, playFails)
    {
      if error {
        effect := Cleanup();
        return;
      }
      if repeatMode == On && repeatSong.Some? {
        current := Some(repeatSong.value.Copy());
        if playFails || voiceClient.None? {
          effect := Cleanup();
        } else {
          effect := StartPlaying(current.value, true);
        }
      } else if queue != [] {
        current := Some(queue[0]);
        queue := queue[1..];
        if playFails || voiceClient.None? {
          effect := Cleanup();
        } else {
          effect := StartPlaying(current.value, false);
        }
      } else {
        effect := Cleanup();
      }
    }

    /** The loop of `play`: queue each playable entry in order and count them. */
    method EnqueueEntries(entries: seq<Option<Entry>>, requester: string) returns (added: nat, raised: bool)
      modifies this`queue
      ensures queue == old(queue) + Enqueue(entries, requester).songs
      ensures added == |Enqueue(entries, requester).songs|
      ensures raised == Enqueue(entries, requester).raised
    {
      added, raised := 0, false;
      var i := 0;
      while i < |entries|
        invariant 0 <= i <= |entries|
        invariant !Enqueue(entries[..i], requester).raised
        invariant queue == old(queue) + Enqueue(entries[..i], requester).songs
        invariant added == |Enqueue(entries[..i], requester).songs|
      {
        assert entries[..i + 1][..i] == entries[..i];
        var entry := entries[i];
        i := i + 1;
        if entry.None? {
          continue;
        }
        var format := SelectFormat(entry.value.formats);
        if format.None? {
          continue;
        }
        if format.value.url.None? {
          raised := true;
          EnqueueStopsAtRaise(entries[..i], entries[i..], requester);
          assert entries[..i] + entries[i..] == entries;
          return;
        }
        var url := format.value.url.value;
        if !HasValidExtension(url) {
          continue;
        }
        var title := if entry.value.title.Some? then entry.value.title.value else UnknownTitle;
        queue := queue + [Song(url, title, requester)];
        added := added + 1;
      }
      assert entries[..i] == entries;
    }
  }

  /** The music cog: one playback state per guild. */
  class Music {
    var guildStates: map<GuildId, GuildMusicState>

    /** Each guild has its own state object: no two ids share one. */
    ghost predicate Valid()
      reads this
    {
      forall g, h :: g in guildStates && h in guildStates && g != h ==> guildStates[g] != guildStates[h]
    }

    constructor ()
      ensures Valid() && guildStates == map[]
    {
      guildStates := map[];
    }

    /** The state of a guild, created on first use. */
    method GetGuildState(guildId: GuildId) returns (state: GuildMusicState)
      requires Valid()
      modifies this
      ensures Valid()
      ensures guildId in guildStates && guildStates[guildId] == state
      ensures guildId in old(guildStates) ==> guildStates == old(guildStates)
      ensures guildId !in old(guildStates) ==>
        fresh(state) && state.State() == Initial && guildStates == old(guildStates)[guildId := state]
    {
      if guildId !in guildStates {
        state := new GuildMusicState();
        guildStates := guildStates[guildId := state];
      }
      state := guildStates[guildId];
    }

    /**
     * The `play` command: join the caller's voice channel, queue the playable
     * entries of the extracted `info`, and start playing if nothing plays.
     */
    method Play(guildId: GuildId, authorInVoice: bool, connection: VoiceClient, info: Option<Info>,
                requester: string, alreadyPlaying: bool, playFails: bool) returns (reply: PlayReply)
      requires Valid()
      modifies this, if guildId in guildStates then {guildStates[guildId]} else {}
      ensures Valid()
      ensures forall h :: h in old(guildStates) && h != guildId ==>
        h in guildStates && guildStates[h] == old(guildStates[h]) && guildStates[h].State() == old(guildStates[h].State())
      ensures !authorInVoice ==> reply == NotInVoice && guildStates == old(guildStates)
      ensures !authorInVoice && guildId in old(guildStates) ==>
        guildStates[guildId].State() == old(guildStates[guildId].State())
      ensures authorInVoice ==> guildId in guildStates
      ensures authorInVoice && guildId in old(guildStates) ==> guildStates == old(guildStates)
      ensures authorInVoice && guildId !in old(guildStates) ==>
        guildId in guildStates && guildStates == old(guildStates)[guildId := guildStates[guildId]]
      ensures authorInVoice ==> (guildId in guildStates &&
        (guildStates[guildId].State(), reply) ==
          PlayTransition(if guildId in old(guildStates) then old(guildStates[guildId].State()) else Initial,
                         connection, info, requester, alreadyPlaying, playFails))
    {
      if !authorInVoice {
        return NotInVoice;
      }
      var state := GetGuildState(guildId);
      state.voiceClient := Some(connection);
      if info.None? {
        return NoInfo;
      }
      var added, raised := state.EnqueueEntries(EntriesOf(info.value), requester);
      if raised {
        return Raised;
      }
      if added == 0 {
        return NothingPlayable;
      }
      if !alreadyPlaying {
        var effect := state.CheckQueue(false, playFails);
        reply := NowPlaying(effect);
      } else {
        reply := AddedToQueue(added);
      }
    }

    /** The `repeat` command: toggle and report whether repeat is now on. */
    method Repeat(guildId: GuildId) returns (on: bool)
      requires Valid()
      modifies this, if guildId in guildStates then {guildStates[guildId]} else {}
      ensures Valid()
      ensures guildId in guildStates
      ensures guildId in old(guildStates) ==> guildStates == old(guildStates)
      ensures guildId !in old(guildStates) ==> guildStates == old(guildStates)[guildId := guildStates[guildId]]
      ensures forall h :: h in old(guildStates) && h != guildId ==>
        guildStates[h].State() == old(guildStates[h].State())
      ensures guildStates[guildId].State() ==
        Toggled(if guildId in old(guildStates) then old(guildStates[guildId].State()) else Initial)
      ensures on <==> guildStates[guildId].repeatMode == On
    {
      var state := GetGuildState(guildId);
      state.ToggleRepeat();
      on := state.repeatMode == On;
    }

    /** The `queue` command: the embed describing the guild's queue. */
    method Queue(guildId: GuildId) returns (view: QueueView)
      requires Valid()
      modifies this
      ensures Valid()
      ensures guildId in guildStates
      ensures guildId in old(guildStates) ==>
        guildStates == old(guildStates) && guildStates[guildId].State() == old(guildStates[guildId].State())
      ensures guildId !in old(guildStates) ==>
        guildStates == old(guildStates)[guildId := guildStates[guildId]] && guildStates[guildId].State() == Initial
      ensures forall h :: h in old(guildStates) ==> guildStates[h].State() == old(guildStates[h].State())
      ensures view == ViewQueue(if guildId in old(guildStates) then old(guildStates[guildId].State()) else Initial)
    {
      var state := GetGuildState(guildId);
      view := ViewQueue(state.State());
    }
  }
}
