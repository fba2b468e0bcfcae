# Discord music and transcription bot: verified model of its stateful core

This project models two stateful parts of the Discord bot in Dafny.

- **The music cog** (`cogs/music.py`, module `MusicCog`). Each guild has its own playback state: a FIFO queue of songs, the current song, a voice connection, a repeat mode (`off`/`on`) and the song to repeat. The model covers four things. The first is the transitions of that state: toggling repeat, cleaning up, and continuing after a song ends. The second is the registry that creates a guild's state on first use. The third is the loop in the `play` command that picks an audio-only stream for each extracted entry and queues it. The fourth is the numbered listing that the `queue` command shows.
  - The state is the class `GuildMusicState`. Its methods update its fields in place.
  - Each method is tied to a function on the value `Playback` (`Toggled`, `CleanedUp`, `AfterSong`). The lemmas about the behaviour are proved about those functions.
  - Discord and FFmpeg calls are modelled as an `Effect` that a transition returns: start playing a song, or disconnect. Whether starting playback raised is a parameter.
- **The live-transcription audio sink** (`StreamAudioSink` in `botTest.py`, module `AudioSink`). This is a table from user id to the PCM bytes received from that user. `Write` appends to one user's buffer. `ProcessBuffers` visits every user in dictionary order, skips empty buffers, and transcribes and posts the others. It empties every buffer it visits, even when transcription fails.
  - The table is a `map` together with `order`, the keys in insertion order. That order is the iteration order of the Python dictionary.
  - The conversion of the bytes to samples (`np.frombuffer`, `reshape`, the int16-to-float scaling), `_resample_audio`, Whisper, the user lookup and the message send are folded into one uninterpreted `Transcriber` parameter. It returns the posted text, or `None` when any of those steps raises (for example when the byte count is not a whole number of stereo int16 frames, so `np.frombuffer` or the reshape fails).

`botTest.py` has no streaming recognizer. There are no partial or final results and no silence endpointing: every pass hands each whole non-empty buffer to Whisper and then clears it. The model follows that code.

## Model

| member | source | states |
|---|---|---|
| MusicCog.GuildMusicState.constructor | cogs/music.py:52-57 | A new guild state has an empty queue, no current song, no voice client, repeat `off` and no song to repeat. |
| MusicCog.GuildMusicState.ToggleRepeat | cogs/music.py:63-69 | The new state is `Toggled` of the old one. Afterwards a song to repeat is remembered only while repeat is on. |
| MusicCog.ToggleFromOff | cogs/music.py:63-66 | From `off`, the mode becomes `on` and the song to repeat is a field-equal copy of the current song (`None` if there is none). The queue, the current song and the voice client are unchanged. |
| MusicCog.ToggleFromOn | cogs/music.py:67-69 | From `on`, the mode becomes `off` and the song to repeat is dropped. Nothing else changes. |
| MusicCog.ToggleTwice | cogs/music.py:63-69 | Two toggles from `off` return to `off` with no song to repeat. On a consistent state they give back exactly the starting state. |
| MusicCog.GuildMusicState.Cleanup | cogs/music.py:76-82 | The new state and the returned effect are exactly `CleanedUp` of the old state. |
| MusicCog.CleanupClears | cogs/music.py:76-82 | After a cleanup the queue is empty and there is no current song, no song to repeat and no voice client. The repeat mode is kept. A disconnect is requested exactly when a voice client was present. |
| MusicCog.CleanupIdempotent | cogs/music.py:76-82 | A second cleanup changes nothing and disconnects nothing. |
| MusicCog.GuildMusicState.CheckQueue | cogs/music.py:92-125 | The new state and the effect are `AfterSong` of the old state, the error flag and the playback-failure flag. |
| MusicCog.AfterErrorIsCleanup | cogs/music.py:94-97 | When a song ended with an error, continuing is exactly a cleanup. |
| MusicCog.AfterSongRepeats | cogs/music.py:100-109 | With repeat on and a song to repeat, when a voice client is present and starting playback does not raise, that song becomes current and is played again "on repeat". The queue is untouched. |
| MusicCog.AfterSongAdvances | cogs/music.py:110-120 | Otherwise, with a non-empty queue, when a voice client is present and starting playback does not raise, the old head becomes current and plays. The queue becomes the old tail (FIFO). |
| MusicCog.AfterSongEmptyQueue | cogs/music.py:121-122 | Otherwise, with an empty queue, continuing is a cleanup. |
| MusicCog.AfterSongFailureCleansUp | cogs/music.py:103-125 | Whenever nothing starts playing (an error, an empty queue, or playback raising), the guild ends in the cleaned-up state. |
| MusicCog.TransitionsKeepRepeatConsistent | cogs/music.py:63-125 | Every transition keeps the rule that a song to repeat exists only while repeat is on. Toggling and cleanup establish that rule from any state. |
| MusicCog.Music.constructor | cogs/music.py:134-137 | The cog starts with no guild states, so no two guilds share a state object. |
| MusicCog.Music.GetGuildState | cogs/music.py:148-152 | A present guild's existing state is returned and the registry is unchanged. Otherwise a fresh initial state is inserted under that id and returned, and no other key changes. Afterwards the id maps to the returned object, so a second call returns the same object. Distinct guilds keep distinct state objects. |
| MusicCog.FirstAudioOnly | cogs/music.py:196-199 | The result is the index of the first format that has audio (`acodec` not `'none'`) and no video (`vcodec == 'none'`). It is the length of the list when no format qualifies. |
| MusicCog.EntrySongSpec | cogs/music.py:192-207 | An entry yields a song exactly when its first audio-only format has a URL that mentions one of the valid extensions. The song streams that URL and carries the requester. |
| MusicCog.EnqueueSound | cogs/music.py:191-209 | Every queued song has a URL with a valid extension and the caller as its requester. There is at most one song per entry. |
| MusicCog.EnqueueInOrder | cogs/music.py:192-209 | When no entry of `a` raised, queueing `a + b` gives the songs of `a` followed by the songs of `b`, with `b`'s raise flag. |
| MusicCog.EnqueueStopsAtRaise | cogs/music.py:204-209 | Once a chosen format without a `url` key raises, later entries add nothing. |
| MusicCog.GuildMusicState.EnqueueEntries | cogs/music.py:191-209 | The queue becomes the old queue followed by exactly the songs `Enqueue` selects. The count returned is the number of songs added, and the flag reports the exception. |
| MusicCog.Music.Play | cogs/music.py:165-218 | When the author is in voice, the guild's state is created if needed and the voice client is set. The state then evolves and the reply is given as `PlayTransition` says. Otherwise the reply is the not-in-voice message, the registry is unchanged and the guild's existing state is unchanged. Every other guild keeps its state object and its state. |
| MusicCog.PlayQueuesAddedSongs | cogs/music.py:208-218 | When songs are only queued, the queue grows by exactly the reported count, and the old queue stays as its prefix. |
| MusicCog.PlayStartsFirstSong | cogs/music.py:191-215 | On an idle guild with repeat off and an empty queue, when starting playback does not raise, `play` starts the first playable entry and leaves the others queued in entry order. |
| MusicCog.Music.Repeat | cogs/music.py:267-274 | The `repeat` command toggles the guild's state, creating it if needed. It reports `on` exactly when repeat is now on. The registry is unchanged when the guild was known and gains only that guild otherwise. Every other guild's state is unchanged. |
| MusicCog.NatToString | cogs/music.py:240 | Python's `str` of a number is a non-empty string of decimal digits. |
| MusicCog.NatToStringRoundTrip | cogs/music.py:240 | Reading the decimal digits of `str(n)` gives `n` back. |
| MusicCog.NumberedLinesAt | cogs/music.py:240 | Line `i` of a listing numbered from `first` is the song at `i`, labelled `first + i`. |
| MusicCog.UpcomingListing | cogs/music.py:239-241 | The listing has `min(10, len(queue))` lines. Line `i` shows song `i` of the queue with its requester, labelled `i + 1`. |
| MusicCog.UpcomingLineNumber | cogs/music.py:240 | The label of listed line `i` reads back as the number `i + 1`. |
| MusicCog.Music.Queue | cogs/music.py:232-243 | The `queue` command shows the current song, if any, and, when the queue is non-empty, its total length and the numbered listing. The guild's state is created if needed, as an initial state under that id alone. No guild's state changes. |
| AudioSink.StreamAudioSink.constructor | botTest.py:23-29 | A new sink has an empty buffer table and is not processing. |
| AudioSink.StreamAudioSink.Write | botTest.py:34-37 | With data from a known user, that user's buffer becomes the old buffer (empty if absent) followed by the new PCM bytes. The user becomes the last key if it was new, and no other buffer changes. With data from a sender that is not a resolved user, reading its id raises and nothing changes. Without data, nothing changes. |
| AudioSink.StreamAudioSink.ProcessBuffers | botTest.py:45-76 | The posted messages are `Transcripts` of the old table in key order. Afterwards every buffer is empty, no key is added or removed, and the key order is kept. |
| AudioSink.TranscriptsSound | botTest.py:48-70 | Every posted message is for a visited user whose buffer was non-empty and whose transcription succeeded, and it carries that text. |
| AudioSink.TranscriptsComplete | botTest.py:51-76 | A user with a non-empty buffer whose transcription succeeds gets its message, whatever fails for other users. |
| AudioSink.TranscriptsIgnoreEmpty | botTest.py:48-49 | Empty buffers are skipped: what the transcriber would answer for them cannot change what is posted. |
| AudioSink.TranscriptsAtMostUsers | botTest.py:47-70 | A pass posts no more messages than it visits users. |
| AudioSink.TranscriptsOnePerUser | botTest.py:47-70 | When the visited users are distinct (the dictionary's keys), no two posted messages are for the same user. |
| AudioSink.StreamAudioSink.StartProcessing | botTest.py:93-95 | Processing is switched on and the buffer table is unchanged. |
| AudioSink.StreamAudioSink.Cleanup | botTest.py:98-101 | Processing is switched off and the table is empty. The result does not depend on the old state, so a second cleanup changes nothing. |

## Left out

- Discord I/O is not modelled: messages, embeds, "now playing" announcements, `ctx.send`, message edits and deletes, and `voice_client.play`, `stop` and `is_playing`. The model returns effects and replies instead. Whether the author is in a voice channel, the voice connection to use, whether something already plays, and whether starting playback raises are all parameters.
- The voice connection step of `play` (connect or move) is a given `VoiceClient`. A failure to connect is not modelled.
- `skip` is not modelled as a command of its own. It gets or creates the guild's state (`GetGuildState`) and, only when a voice client is set, calls `voice_client.stop()` and sends a "skipped" message. After a stop the library invokes `check_queue` through the `after` callback; `CheckQueue` covers that continuation.
- Song identity is not modelled. `Song.copy` makes a new object with the same fields. Songs are never mutated, so a `datatype` value with field equality captures everything observable.
- `original_playlist` is not modelled: it is set to an empty list in the constructor and never used.
- The repeat mode strings `'off'` and `'on'` are an enumeration. No other string is ever assigned.
- An entry's `formats` or `title` present with a non-list or non-string value is not modelled (a missing key is modelled). A chosen format without a `url` key is modelled as an exception that aborts the loop.
- The playlist shape of the extracted info is kept, although the extraction helper never returns a playlist. The extraction itself (`utils/yt_helper.py`, the network) is not part of this model.
- `get_guild_state` is defined twice in `cogs/music.py` (lines 148 and 255) with the same body. Python keeps the second definition; one method models both.
- Joining the listed lines with newlines into one embed value is not modelled. The listing is the sequence of lines.
- Whisper, the Torch model, `bot.fetch_user` and `text_channel.send` are one uninterpreted, possibly failing `Transcriber`.
- The int16-to-float conversion and `_resample_audio` are not computed: they use floating-point interpolation. They are part of the `Transcriber`, whose `None` covers their exceptions (a byte count that is not a multiple of 4 makes `np.frombuffer` or the reshape raise).
- `process_audio` (the periodic loop with `asyncio.sleep`), the background coroutine that `start_processing` schedules, and `asyncio.to_thread` are not modelled (scheduling).
- Concurrency is not modelled. `write` runs on the voice receiver's thread while `_process_buffers` awaits. In the real system, bytes appended to a user's buffer during that user's transcription are overwritten by the `finally` clause, and a new user's first packet during a pass can make the dictionary change size mid-iteration. The model treats a pass as atomic.
- `wants_opus` (a constant `False`) and the `join`/`leave` commands are Discord glue and are not modelled. The effect of `leave` on the sink is `Cleanup`.
- `write` is reached with `user` set to `None` when the voice receiver cannot resolve the sender; `user.id` then raises `AttributeError`. `Write` models this as a raised flag with no change. How the voice receiver handles that exception is not part of this model.
- A packet that is present but carries empty PCM still makes the code insert the user with an empty buffer (the `defaultdict` lookup does that). The model does the same, so `Write` with present but empty PCM leaves every buffer's contents unchanged but may add the user as a new key.
- Everything outside `cogs/music.py` and `botTest.py` is not part of this model: text-to-speech, the Ollama client, the assistant and basic-command cogs, and the microphone test.
