/**
 * The per-speaker PCM buffer table of the live-transcription voice sink
 * (`StreamAudioSink` in botTest.py).
 *
 * The Python `defaultdict(bytes)` is an insertion-ordered dictionary; here it
 * is the map `audioBuffers` together with `order`, the sequence of its keys in
 * insertion order, which is the order `_process_buffers` visits them in.
 * Whisper, `bot.fetch_user` and `text_channel.send` are folded into one
 * uninterpreted `Transcriber` that either yields the text of the message sent
 * for a user or fails (`None`), standing for any exception raised in the
 * `try` block.
 */
module AudioSink {
  import opened Wrappers

  newtype byte = x: int | 0 <= x < 256

  type UserId = nat

  /** The part of a received voice packet the sink uses: its decoded PCM bytes. */
  datatype VoiceData = VoiceData(pcm: seq<byte>)

  /** A transcription posted to the text channel for one user. */
  datatype Message = Message(user: UserId, text: string)

  /** Transcribe one user's buffer and post it; `None` when any step raises. */
  type Transcriber = (UserId, seq<byte>) -> Option<string>

  /** The buffer of `user`, reading a missing key as empty (the defaultdict's default). */
  function BufferOf(buffers: map<UserId, seq<byte>>, user: UserId): seq<byte>
  {
    if user in buffers then buffers[user] else []
  }

  /** The message posted for `user` with buffer `buffer`, if any. */
  function MessageFor(user: UserId, buffer: seq<byte>, transcribe: Transcriber): seq<Message>
  {
    if buffer == [] then []
    else match transcribe(user, buffer)
      case Some(text) => [Message(user, text)]
      case None => []
  }

  /** The messages one processing pass posts, visiting `users` in order. */
  function Transcripts(users: seq<UserId>, buffers: map<UserId, seq<byte>>, transcribe: Transcriber): seq<Message>
  {
    if users == [] then []
    else
      var last := users[|users| - 1];
      Transcripts(users[..|users| - 1], buffers, transcribe) + MessageFor(last, BufferOf(buffers, last), transcribe)
  }

  /** Every posted message comes from a visited user whose buffer was non-empty and whose transcription succeeded. */
  lemma {:induction false} TranscriptsSound(users: seq<UserId>, buffers: map<UserId, seq<byte>>, transcribe: Transcriber, m: Message)
    requires m in Transcripts(users, buffers, transcribe)
    ensures m.user in users
    ensures BufferOf(buffers, m.user) != []
    ensures transcribe(m.user, BufferOf(buffers, m.user)) == Some(m.text)
  {
    var last := users[|users| - 1];
    if m in Transcripts(users[..|users| - 1], buffers, transcribe) {
      TranscriptsSound(users[..|users| - 1], buffers, transcribe, m);
    } else {
      assert m in MessageFor(last, BufferOf(buffers, last), transcribe);
    }
  }

  /**
   * Failure isolation: a user whose buffer is non-empty and whose
   * transcription succeeds gets a message, whatever happens to the others.
   */
  lemma {:induction false} TranscriptsComplete(users: seq<UserId>, buffers: map<UserId, seq<byte>>, transcribe: Transcriber, u: UserId)
    requires u in users
    requires BufferOf(buffers, u) != []
    requires transcribe(u, BufferOf(buffers, u)).Some?
    ensures Message(u, transcribe(u, BufferOf(buffers, u)).value) in Transcripts(users, buffers, transcribe)
  {
    var init := users[..|users| - 1];
    if u != users[|users| - 1] {
      assert u in init;
      TranscriptsComplete(init, buffers, transcribe, u);
    }
  }

  /**
   * Empty buffers are skipped: what the transcriber would answer for them
   * has no bearing on what is posted.
   */
  lemma {:induction false} TranscriptsIgnoreEmpty(users: seq<UserId>, buffers: map<UserId, seq<byte>>, t1: Transcriber, t2: Transcriber)
    requires forall u :: u in users && BufferOf(buffers, u) != [] ==> t1(u, BufferOf(buffers, u)) == t2(u, BufferOf(buffers, u))
    ensures Transcripts(users, buffers, t1) == Transcripts(users, buffers, t2)
  {
    if users != [] {
      TranscriptsIgnoreEmpty(users[..|users| - 1], buffers, t1, t2);
    }
  }

  /** No more messages than visited users. */
  lemma {:induction false} TranscriptsAtMostUsers(users: seq<UserId>, buffers: map<UserId, seq<byte>>, transcribe: Transcriber)
    ensures |Transcripts(users, buffers, transcribe)| <= |users|
  {
    if users != [] {
      TranscriptsAtMostUsers(users[..|users| - 1], buffers, transcribe);
    }
  }

  /** No two messages are for the same user. */
  ghost predicate DistinctUsers(ms: seq<Message>)
  {
    forall a, b :: 0 <= a < b < |ms| ==> ms[a].user != ms[b].user
  }

  /** When no user is visited twice, no user gets two messages in one pass. */
  lemma {:induction false} TranscriptsOnePerUser(users: seq<UserId>, buffers: map<UserId, seq<byte>>, transcribe: Transcriber)
    requires Distinct(users)
    ensures DistinctUsers(Transcripts(users, buffers, transcribe))
  {
    if users != [] {
      var init := users[..|users| - 1];
      var last := users[|users| - 1];
      var before := Transcripts(init, buffers, transcribe);
      var t := Transcripts(users, buffers, transcribe);
      TranscriptsOnePerUser(init, buffers, transcribe);
      assert t == before + MessageFor(last, BufferOf(buffers, last), transcribe);
      forall a, b | 0 <= a < b < |t|
        ensures t[a].user != t[b].user
      {
        if b >= |before| {
          assert |MessageFor(last, BufferOf(buffers, last), transcribe)| <= 1;
          assert a < |before| && t[b].user == last;
          assert t[a] == before[a];
          TranscriptsSound(init, buffers, transcribe, t[a]);
          var k :| 0 <= k < |init| && init[k] == t[a].user;
          assert users[k] == t[a].user && users[|users| - 1] == last;
        } else {
          assert t[a] == before[a] && t[b] == before[b];
        }
      }
    }
  }

  /** One more visited user adds exactly the message posted for that user. */
  lemma TranscriptsStep(users: seq<UserId>, i: nat, buffers: map<UserId, seq<byte>>, transcribe: Transcriber)
    requires i < |users| && users[i] in buffers
    ensures Transcripts(users[..i + 1], buffers, transcribe)
         == Transcripts(users[..i], buffers, transcribe) + MessageFor(users[i], buffers[users[i]], transcribe)
  {
    assert users[..i + 1][..i] == users[..i];
  }

  /** No user is listed twice. */
  ghost predicate Distinct(users: seq<UserId>)
  {
    forall a, b :: 0 <= a < b < |users| ==> users[a] != users[b]
  }

  /** `users` lists exactly the keys of `buffers`. */
  ghost predicate SameKeys(users: seq<UserId>, buffers: map<UserId, seq<byte>>)
  {
    forall u :: u in users <==> u in buffers
  }

  /** In a list without repetitions, the element at `i` is not among the first `i`. */
  lemma NotVisitedYet(users: seq<UserId>, i: nat)
    requires i < |users|
    requires Distinct(users)
    ensures users[i] !in users[..i]
  {
  }

  /**
   * `buffers` is `start` with the buffers of the first `i` users emptied and
   * every other buffer as it was.
   */
  ghost predicate ClearedUpTo(users: seq<UserId>, i: nat, start: map<UserId, seq<byte>>, buffers: map<UserId, seq<byte>>)
    requires i <= |users|
  {
    buffers.Keys == start.Keys &&
    forall u :: u in buffers ==> buffers[u] == if u in users[..i] then [] else start[u]
  }

  /** Visiting user `i` (emptying a non-empty buffer, skipping an empty one) clears one more user. */
  lemma ClearStep(users: seq<UserId>, i: nat, start: map<UserId, seq<byte>>, buffers: map<UserId, seq<byte>>)
    requires i < |users| && Distinct(users) && SameKeys(users, start)
    requires ClearedUpTo(users, i, start, buffers)
    ensures users[i] in buffers && buffers[users[i]] == start[users[i]]
    ensures ClearedUpTo(users, i + 1, start, buffers[users[i] := []])
    ensures buffers[users[i]] == [] ==> ClearedUpTo(users, i + 1, start, buffers)
  {
    NotVisitedYet(users, i);
    assert users[..i + 1] == users[..i] + [users[i]];
  }

  /** After the last user, every buffer is empty. */
  lemma ClearedAll(users: seq<UserId>, start: map<UserId, seq<byte>>, buffers: map<UserId, seq<byte>>)
    requires SameKeys(users, start) && ClearedUpTo(users, |users|, start, buffers)
    ensures SameKeys(users, buffers) && buffers.Keys == start.Keys
    ensures forall u :: u in buffers ==> buffers[u] == []
  {
    assert users[..|users|] == users;
  }

  class StreamAudioSink {
    /** Keys of `audioBuffers` in insertion order. */
    var order: seq<UserId>
    var audioBuffers: map<UserId, seq<byte>>
    var processing: bool

    /** `order` lists each key of the dictionary exactly once. */
    ghost predicate Valid()
      reads this
    {
      SameKeys(order, audioBuffers) && Distinct(order)
    }

    constructor ()
      ensures Valid()
      ensures order == [] && audioBuffers == map[] && !processing
    {
      order := [];
      audioBuffers := map[];
      processing := false;
    }

    /**
     * Collect raw PCM from a user: append it to that user's buffer. A packet
     * from a sender not known as a user (`None`) raises, since its id is read.
     */
    method Write(user: Option<UserId>, data: Option<VoiceData>) returns (raised: bool)
      requires Valid()
      modifies this
      ensures Valid()
      ensures processing == old(processing)
      ensures raised <==> data.Some? && user.None?
      ensures data.None? || raised ==> audioBuffers == old(audioBuffers) && order == old(order)
      ensures data.Some? && user.Some? ==>
        audioBuffers == old(audioBuffers)[user.value := BufferOf(old(audioBuffers), user.value) + data.value.pcm] &&
        order == if user.value in old(audioBuffers) then old(order) else old(order) + [user.value]
    {
      raised := false;
      if data.Some? {
        if user.None? {
          raised := true;
          return;
        }
        var id := user.value;
        if id !in audioBuffers {
          order := order + [id];
        }
        audioBuffers := audioBuffers[id := BufferOf(audioBuffers, id) + data.value.pcm];
      }
    }

    /**
     * One transcription pass: visit every user in insertion order, skip empty
     * buffers, transcribe and post the others, and empty each visited buffer
     * whether or not transcription succeeded.
     */
    method ProcessBuffers(transcribe: Transcriber) returns (sent: seq<Message>)
      requires Valid()
      modifies this
      ensures Valid()
      ensures order == old(order) && processing == old(processing)
      ensures audioBuffers.Keys == old(audioBuffers).Keys
      ensures forall u :: u in audioBuffers ==> audioBuffers[u] == []
      ensures sent == Transcripts(order, old(audioBuffers), transcribe)
    {
      ghost var start := audioBuffers;
      ghost var users := order;
      assert users[..0] == [];
      sent := [];
      var i := 0;
      while i < |order|
        invariant 0 <= i <= |users| && order == users && processing == old(processing)
        invariant ClearedUpTo(users, i, start, audioBuffers)
        invariant sent == Transcripts(users[..i], start, transcribe)
      {
        var user := order[i];
        ClearStep(users, i, start, audioBuffers);
        var buffer := audioBuffers[user];
        TranscriptsStep(users, i, start, transcribe);
        if |buffer| != 0 {
          var result := transcribe(user, buffer);
          if result.Some? {
            sent := sent + [Message(user, result.value)];
          }
          audioBuffers := audioBuffers[user := []];
        }
        i := i + 1;
      }
      assert users[..i] == users;
      ClearedAll(users, start, audioBuffers);
    }

    /** Start the processing loop (the periodic task itself is not modelled). */
    method StartProcessing()
      requires Valid()
      modifies this
      ensures Valid()
      ensures processing
      ensures order == old(order) && audioBuffers == old(audioBuffers)
    {
      processing := true;
    }

    /** Stop processing and drop every buffer; the result does not depend on the old state. */
    method Cleanup()
      requires Valid()
      modifies this
      ensures Valid()
      ensures !processing && audioBuffers == map[] && order == []
    {
      processing := false;
      audioBuffers := map[];
      order := [];
    }
  }
}
