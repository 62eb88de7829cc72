/**
  The recording controller (js/screen.js:19-33, 135-142, 165-204, 237-363):
  the module-level state of the page script as the fields of one object,
  and one method per function or event handler that changes it.

  The page mode is what `updateUIMode` writes to `document.body.dataset.mode`.
  Interval ids and object URLs are handed out from counters, as
  `setInterval` and `URL.createObjectURL` hand out fresh ones. Browser events
  (timer ticks, the recorder's events) are method calls whose preconditions
  say when the browser can fire them.
*/
module Recorder {
  import opened Wrappers
  import opened Timer
  import opened Capture
  import opened Registry
  import opened Media

  /** The page mode. */
  datatype Mode = Idle | Recording | Paused | Finished

  /** What the preview `<video>` shows: nothing, the live stream, or a recording's URL. */
  datatype Preview = Blank | Live(tracks: seq<Track>) | Playback(url: Url)

  /** The file download `downloadRecording` triggers: the link's href and file name. */
  datatype Download = Download(href: Url, fileName: string)

  /** The set of a stream's tracks. */
  function TrackSet(ts: seq<Track>): set<Track> {
    set i | 0 <= i < |ts| :: ts[i]
  }

  /** At most one interval runs, and it is the one `timerInterval` names. */
  ghost predicate SingleInterval(live: set<nat>, timerInterval: Option<nat>, nextInterval: nat) {
    forall h :: h in live ==> timerInterval == Some(h) && h < nextInterval
  }

  /** The counter runs exactly while the recorder's handlers last saw 'recording'. */
  ghost predicate TimerFollowsRecorder(live: set<nat>, mediaRecorder: Option<Encoder>) {
    live != {} <==> mediaRecorder.Some? && mediaRecorder.value.handled == Media.Recording
  }

  /** The timer element shows the count. */
  ghost predicate Shows(text: string, seconds: nat) {
    text == Format(seconds)
  }

  /** The URLs the list holds were handed out, are still valid, and each
      belongs to entries of a single id; an entry has a URL exactly when it
      has a payload. */
  ghost predicate UrlsSound(recs: seq<Entry>, revoked: set<Url>, nextUrl: nat) {
    && (forall u :: u in revoked ==> u.handle < nextUrl)
    && (forall r :: r in recs ==> (r.url.Some? <==> r.blob.Some?))
    && (forall r :: r in recs && r.url.Some? ==> r.url.value.handle < nextUrl && r.url.value !in revoked)
    && (forall r1, r2 :: r1 in recs && r2 in recs && r1.url.Some? && r1.url == r2.url ==> r1.id == r2.id)
  }

  /** Restored entries, which carry no URL, keep the URLs sound. */
  lemma UrlsSoundAppendRestored(recs: seq<Entry>, restored: seq<Entry>,
                                revoked: set<Url>, nextUrl: nat)
    requires UrlsSound(recs, revoked, nextUrl)
    requires forall r :: r in restored ==> r.url.None? && r.blob.None?
    ensures UrlsSound(recs + restored, revoked, nextUrl)
  {
  }

  /** A recording with the next fresh URL and a payload keeps the URLs sound,
      and no earlier entry has its URL. */
  lemma UrlsSoundPrepend(rec: Entry, recs: seq<Entry>, revoked: set<Url>, nextUrl: nat)
    requires UrlsSound(recs, revoked, nextUrl)
    requires rec.url == Some(ObjectUrl(nextUrl)) && rec.blob.Some?
    ensures UrlsSound([rec] + recs, revoked, nextUrl + 1)
    ensures forall r :: r in recs ==> r.url != rec.url
  {
  }

  /** Deleting an id after revoking the URL of its first entry keeps the URLs sound. */
  lemma UrlsSoundDelete(recs: seq<Entry>, id: string, revoked: set<Url>, nextUrl: nat)
    requires UrlsSound(recs, revoked, nextUrl)
    ensures var gone := if PlayableUrl(recs, id).Some? then {PlayableUrl(recs, id).value} else {};
      UrlsSound(Without(recs, id), revoked + gone, nextUrl)
  {
    WithoutMembers(recs, id);
  }

  class ScreenRecorder {
    var mode: Mode
    var mediaRecorder: Option<Encoder>
    var stream: Option<seq<Track>>
    var recordedChunks: seq<Chunk>
    var recordings: seq<Entry>
    /** localStorage 'screenRecordings', None while nothing was saved. */
    var storage: Option<seq<Meta>>
    var secondsElapsed: nat
    /** The text of the `#timer` element. */
    var timerText: string
    /** The id of the last interval set. */
    var timerInterval: Option<nat>
    /** The intervals set and not cleared: the ones the browser still fires. */
    var liveIntervals: set<nat>
    var nextInterval: nat
    var nextUrl: nat
    var revoked: set<Url>
    /** Tracks on which `stop()` has been called. */
    var stoppedTracks: set<Track>
    var preview: Preview
    /** The recording id the download button's handler downloads, if set. */
    var downloadId: Option<string>

    /** At most one interval runs, and it runs exactly while the recorder's
        handlers last saw 'recording'. */
    ghost predicate TimerSound()
      reads this`liveIntervals, this`timerInterval, this`nextInterval, this`mediaRecorder
    {
      SingleInterval(liveIntervals, timerInterval, nextInterval) && TimerFollowsRecorder(liveIntervals, mediaRecorder)
    }

    /** At most one interval runs, and it is the one `timerInterval` names. */
    ghost predicate OneTimer()
      reads this`liveIntervals, this`timerInterval, this`nextInterval
    {
      SingleInterval(liveIntervals, timerInterval, nextInterval)
    }

    /** The timer element shows the count. Only `Tick` and `ResetSession`
        (part of startRecording) write either field; no other method names
        them in its frame, so every other method keeps this as it is. */
    ghost predicate ShowsCount()
      reads this`timerText, this`secondsElapsed
    {
      Shows(timerText, secondsElapsed)
    }

    /** The list's URLs were handed out, are not revoked, and none is shared
        by entries of different ids. */
    ghost predicate ListSound()
      reads this`recordings, this`revoked, this`nextUrl
    {
      UrlsSound(recordings, revoked, nextUrl)
    }

    /** Everything but the agreement of the list with storage. */
    ghost predicate Sound()
      reads this
    {
      TimerSound() && ListSound()
    }

    /** Storage holds the projection of the list. */
    ghost predicate Synced()
      reads this`recordings, this`storage
    {
      Project(recordings) == Stored(storage)
    }

    /** The invariant every handler keeps. */
    ghost predicate Valid()
      reads this
    {
      TimerSound() && ListSound() && Synced()
    }

    /** init(): the initial state of the page, then loadRecordings with what
        storage holds; the page shows "00:00" before any recording. */
    constructor(saved: Option<seq<Meta>>)
      ensures Valid() && ShowsCount()
      ensures mode == Idle && mediaRecorder.None? && stream.None? && liveIntervals == {}
      ensures storage == saved && recordings == Loaded(Stored(saved), {})
      ensures Project(recordings) == Stored(saved)
    {
      mode := Idle;
      mediaRecorder, stream := None, None;
      recordedChunks, recordings := [], [];
      storage := saved;
      secondsElapsed := 0;
      timerText := "00:00";
      timerInterval, liveIntervals, nextInterval := None, {}, 0;
      nextUrl, revoked, stoppedTracks := 0, {}, {};
      preview, downloadId := Blank, None;
      new;
      FormatZero();
      assert Ids(recordings) == {};
      LoadRecordings();
    }

    /** clearInterval(timerInterval): the interval it names stops firing. */
    method StopTimer()
      requires OneTimer()
      modifies this`liveIntervals
      ensures liveIntervals == {} && OneTimer()
    {
      if timerInterval.Some? {
        liveIntervals := liveIntervals - {timerInterval.value};
      }
    }

    /** startTimer(): clears the previous interval, then sets a fresh one. */
    method StartTimer()
      requires OneTimer()
      modifies this`liveIntervals, this`timerInterval, this`nextInterval
      ensures timerInterval == Some(old(nextInterval)) && liveIntervals == {old(nextInterval)}
      ensures nextInterval == old(nextInterval) + 1 && OneTimer()
    {
      StopTimer();
      timerInterval := Some(nextInterval);
      liveIntervals := liveIntervals + {nextInterval};
      nextInterval := nextInterval + 1;
    }

    /** One firing of the live interval: the count goes up by one and the
        timer shows it as MM:SS. It only fires while the recorder's handlers
        last saw 'recording', so only recording time is counted. */
    method Tick(h: nat)
      requires Valid() && h in liveIntervals
      modifies this`secondsElapsed, this`timerText
      ensures Valid()
      ensures secondsElapsed == old(secondsElapsed) + 1
      ensures ShowsCount() && ParseTimer(timerText) == secondsElapsed
      ensures mediaRecorder.Some? && mediaRecorder.value.handled == Media.Recording
      ensures mediaRecorder.value.pending == [] ==> State(mediaRecorder.value) == Media.Recording
    {
      secondsElapsed := secondsElapsed + 1;
      timerText := Format(secondsElapsed);
      FormatRoundTrip(secondsElapsed);
    }

    /** startRecording(): shows the recording mode, clears the chunks, resets
        the count to 0 and the timer to "00:00", then composes the stream; on
        success it previews it, starts a new recorder and the timer. A failed
        composition, or a recorder that cannot be created (`encoderOk` false),
        returns to the idle mode. `devices` answers the browser's capture
        requests; the requests made and the composed stream, if any, are returned. */
    method StartRecording(sel: Selection, devices: Request -> Grant, encoderOk: bool)
      returns (issued: seq<Request>, streamParts: Option<seq<Track>>)
      requires Valid()
      modifies this`mode, this`recordedChunks, this`secondsElapsed, this`timerText, this`stream, this`preview,
              this`mediaRecorder, this`liveIntervals, this`timerInterval, this`nextInterval
      ensures Valid()
      ensures issued == Issued(Plan(sel), devices)
      ensures streamParts.Some? <==> Composes(sel, devices)
      ensures streamParts.Some? ==> streamParts.value == ComposedTracks(sel, devices)
      ensures recordedChunks == [] && secondsElapsed == 0 && timerText == "00:00" && ShowsCount()
      ensures streamParts.None? ==>
        mode == Idle && stream == old(stream) && mediaRecorder == old(mediaRecorder)
        && liveIntervals == old(liveIntervals) && preview == old(preview)
      ensures streamParts.Some? ==> stream == streamParts && preview == Live(streamParts.value)
      ensures streamParts.Some? && !encoderOk ==>
        mode == Idle && mediaRecorder == old(mediaRecorder) && liveIntervals == old(liveIntervals)
      ensures streamParts.Some? && encoderOk ==>
        mode == Mode.Recording && mediaRecorder == Some(Started())
        && timerInterval == Some(old(nextInterval)) && liveIntervals == {old(nextInterval)}
        && nextInterval == old(nextInterval) + 1
      ensures streamParts.None? || !encoderOk ==>
        timerInterval == old(timerInterval) && nextInterval == old(nextInterval)
    {
      ResetSession();
      var r;
      issued, r := GetMediaStreams(sel, devices);
      streamParts := if r.Success? then Some(r.value.tracks) else None;
      ContinueStart(streamParts, encoderOk);
    }

    /** The rest of startRecording, once `await getMediaStreams()` has given
        `streamParts`: with none, back to idle; otherwise the stream is kept and
        previewed, then a new recorder is started with the timer, unless
        creating it throws (`encoderOk` false) and the catch block returns to idle. */
    method ContinueStart(streamParts: Option<seq<Track>>, encoderOk: bool)
      requires Valid()
      modifies this`mode, this`stream, this`preview,
              this`mediaRecorder, this`liveIntervals, this`timerInterval, this`nextInterval
      ensures Valid()
      ensures streamParts.None? ==>
        mode == Idle && stream == old(stream) && mediaRecorder == old(mediaRecorder)
        && liveIntervals == old(liveIntervals) && preview == old(preview)
      ensures streamParts.Some? ==> stream == streamParts && preview == Live(streamParts.value)
      ensures streamParts.Some? && !encoderOk ==>
        mode == Idle && mediaRecorder == old(mediaRecorder) && liveIntervals == old(liveIntervals)
      ensures streamParts.Some? && encoderOk ==>
        mode == old(mode) && mediaRecorder == Some(Started())
        && timerInterval == Some(old(nextInterval)) && liveIntervals == {old(nextInterval)}
        && nextInterval == old(nextInterval) + 1
      ensures streamParts.None? || !encoderOk ==>
        timerInterval == old(timerInterval) && nextInterval == old(nextInterval)
    {
      if streamParts.None? {
        mode := Idle;
        return;
      }
      stream := streamParts;
      preview := Live(streamParts.value);
      if !encoderOk {
        // `new MediaRecorder` threw: the catch block.
        mode := Idle;
        return;
      }
      StartRecorder();
    }

    /** A new recorder is created and started, then startTimer(). */
    method StartRecorder()
      requires Valid()
      modifies this`mediaRecorder, this`liveIntervals, this`timerInterval, this`nextInterval
      ensures Valid()
      ensures mediaRecorder == Some(Started()) && timerInterval == Some(old(nextInterval))
      ensures liveIntervals == {old(nextInterval)} && nextInterval == old(nextInterval) + 1
    {
      mediaRecorder := Some(Started());
      StartTimer();
    }

    /** The synchronous start of startRecording: the recording mode, no
        chunks, a count of 0 and a timer showing "00:00". */
    method ResetSession()
      requires Valid()
      modifies this`mode, this`recordedChunks, this`secondsElapsed, this`timerText
      ensures Valid()
      ensures mode == Mode.Recording && recordedChunks == []
      ensures secondsElapsed == 0 && timerText == "00:00" && ShowsCount()
    {
      mode := Mode.Recording;
      recordedChunks := [];
      secondsElapsed := 0;
      timerText := "00:00";
      FormatZero();
    }

    /** togglePauseResume(): pauses a recording recorder and resumes a paused
        one; with no recorder, or an inactive one, nothing changes. */
    method TogglePauseResume()
      requires Valid()
      modifies this`mediaRecorder
      ensures Valid()
      ensures mediaRecorder.Some? == old(mediaRecorder).Some?
      ensures mediaRecorder.Some? ==>
        State(mediaRecorder.value) == Toggled(State(old(mediaRecorder).value))
        && mediaRecorder.value.handled == old(mediaRecorder).value.handled
      ensures old(mediaRecorder).Some? && State(old(mediaRecorder).value) == Media.Recording ==>
        mediaRecorder == Some(Pause(old(mediaRecorder).value))
      ensures old(mediaRecorder).Some? && State(old(mediaRecorder).value) == Media.Paused ==>
        mediaRecorder == Some(Resume(old(mediaRecorder).value))
      ensures old(mediaRecorder).Some? && State(old(mediaRecorder).value) == Media.Inactive ==>
        mediaRecorder == old(mediaRecorder)
    {
      if mediaRecorder.None? {
        return;
      }
      var enc := mediaRecorder.value;
      if State(enc) == Media.Recording {
        mediaRecorder := Some(Pause(enc));
      } else if State(enc) == Media.Paused {
        mediaRecorder := Some(Resume(enc));
      }
    }

    /** stopRecording(): stops the recorder unless it is already inactive,
        and stops every track of the stream, if there is one. A second call
        leaves the recorder as the first one left it. */
    method StopRecording()
      requires Valid()
      modifies this`mediaRecorder, this`stoppedTracks
      ensures Valid()
      ensures mediaRecorder.Some? == old(mediaRecorder).Some?
      ensures old(mediaRecorder).Some? && State(old(mediaRecorder).value) != Media.Inactive ==>
        mediaRecorder == Some(Stop(old(mediaRecorder).value))
      ensures old(mediaRecorder).Some? && State(old(mediaRecorder).value) == Media.Inactive ==>
        mediaRecorder == old(mediaRecorder)
      ensures mediaRecorder.Some? ==> State(mediaRecorder.value) == Media.Inactive
      ensures stoppedTracks == old(stoppedTracks) + (if old(stream).Some? then TrackSet(old(stream).value) else {})
    {
      if mediaRecorder.Some? && State(mediaRecorder.value) != Media.Inactive {
        mediaRecorder := Some(Stop(mediaRecorder.value));
      }
      if stream.Some? {
        stoppedTracks := stoppedTracks + TrackSet(stream.value);
      }
    }

    /** The 'pause' event: the timer stops, the count is kept, the mode is paused. */
    method OnPause()
      requires Valid() && mediaRecorder.Some?
      requires mediaRecorder.value.pending != [] && mediaRecorder.value.pending[0] == PauseEvent
      modifies this`mediaRecorder, this`liveIntervals, this`mode
      ensures Valid()
      ensures mediaRecorder == Some(Deliver(old(mediaRecorder).value))
      ensures liveIntervals == {} && mode == Mode.Paused
    {
      mediaRecorder := Some(Deliver(mediaRecorder.value));
      StopTimer();
      mode := Mode.Paused;
    }

    /** The 'resume' event: the timer restarts from the kept count, the mode is recording. */
    method OnResume()
      requires Valid() && mediaRecorder.Some?
      requires mediaRecorder.value.pending != [] && mediaRecorder.value.pending[0] == ResumeEvent
      modifies this`mediaRecorder, this`liveIntervals, this`timerInterval, this`nextInterval, this`mode
      ensures Valid()
      ensures mediaRecorder == Some(Deliver(old(mediaRecorder).value))
      ensures timerInterval == Some(old(nextInterval)) && liveIntervals == {old(nextInterval)}
      ensures nextInterval == old(nextInterval) + 1 && mode == Mode.Recording
    {
      mediaRecorder := Some(Deliver(mediaRecorder.value));
      StartTimer();
      mode := Mode.Recording;
    }

    /** The 'dataavailable' event: the chunk is appended, so the payload is
        the chunks in arrival order. */
    method OnDataAvailable(data: Chunk)
      requires Valid() && mediaRecorder.Some?
      requires mediaRecorder.value.pending != [] && mediaRecorder.value.pending[0] == DataEvent
      modifies this`mediaRecorder, this`recordedChunks
      ensures Valid()
      ensures mediaRecorder == Some(Deliver(old(mediaRecorder).value))
      ensures recordedChunks == old(recordedChunks) + [data]
      ensures Payload(recordedChunks).bytes == Payload(old(recordedChunks)).bytes + data
    {
      mediaRecorder := Some(Deliver(mediaRecorder.value));
      recordedChunks := recordedChunks + [data];
      FlattenAppend(old(recordedChunks), data);
    }

    /** handleStop(), run by the 'stop' event: stops the timer, turns the
        chunks into a payload and empties them, then puts a new recording
        `recording-<id>.webm` with a fresh URL and that payload at the front
        of the list, previews it, points the download button at it, shows
        the finished mode and saves the list. `now` is `Date.now()` and
        `date` the formatted date. */
    method HandleStop(now: nat, date: string)
      requires Valid() && mediaRecorder.Some?
      requires mediaRecorder.value.pending != [] && mediaRecorder.value.pending[0] == StopEvent
      modifies this`mediaRecorder, this`liveIntervals, this`recordedChunks, this`nextUrl, this`recordings,
              this`preview, this`downloadId, this`mode, this`storage
      ensures Valid()
      ensures mediaRecorder == Some(Deliver(old(mediaRecorder).value))
      ensures liveIntervals == {} && recordedChunks == [] && mode == Finished
      ensures nextUrl == old(nextUrl) + 1
      ensures var id := NatToString(now);
        var url := ObjectUrl(old(nextUrl));
        && recordings == [Entry(id, RecordingName(id), date, Some(url), Some(Payload(old(recordedChunks))))]
                         + old(recordings)
        && (forall r :: r in old(recordings) ==> r.url != Some(url))
        && PlayableUrl(recordings, id) == Some(url)
        && preview == Playback(url) && downloadId == Some(id)
      ensures storage == Some(Project(recordings))
    {
      FinishRecorder();
      var id := NatToString(now);
      var url := StoreRecording(id, date);
      ShowFinished(url, id);
    }

    /** The 'stop' event reaches its handler, which clears the interval. */
    method FinishRecorder()
      requires Valid() && mediaRecorder.Some?
      requires mediaRecorder.value.pending != [] && mediaRecorder.value.pending[0] == StopEvent
      modifies this`mediaRecorder, this`liveIntervals
      ensures Valid()
      ensures mediaRecorder == Some(Deliver(old(mediaRecorder).value)) && liveIntervals == {}
    {
      mediaRecorder := Some(Deliver(mediaRecorder.value));
      StopTimer();
    }

    /** The chunks become the payload of a recording with a fresh URL, which
        goes to the front of the list; the list is saved. */
    method StoreRecording(id: string, date: string) returns (url: Url)
      requires Valid()
      modifies this`recordedChunks, this`recordings, this`nextUrl, this`storage
      ensures Valid()
      ensures url == ObjectUrl(old(nextUrl)) && nextUrl == old(nextUrl) + 1 && recordedChunks == []
      ensures recordings == [Entry(id, RecordingName(id), date, Some(url), Some(Payload(old(recordedChunks))))]
                            + old(recordings)
      ensures forall r :: r in old(recordings) ==> r.url != Some(url)
      ensures PlayableUrl(recordings, id) == Some(url)
      ensures storage == Some(Project(recordings))
    {
      var blob := Payload(recordedChunks);
      recordedChunks := [];
      url := ObjectUrl(nextUrl);
      var rec := Entry(id, RecordingName(id), date, Some(url), Some(blob));
      UrlsSoundPrepend(rec, recordings, revoked, nextUrl);
      FindPrepended(rec, recordings);
      recordings := [rec] + recordings;
      nextUrl := nextUrl + 1;
      SaveAndRenderRecordings();
    }

    /** The preview plays the new recording, the download button downloads
        it, and the page shows the finished mode. */
    method ShowFinished(url: Url, id: string)
      requires Valid()
      modifies this`preview, this`downloadId, this`mode
      ensures Valid()
      ensures preview == Playback(url) && downloadId == Some(id) && mode == Finished
    {
      preview := Playback(url);
      downloadId := Some(id);
      mode := Finished;
    }

    /** saveAndRenderRecordings(): storage receives the projection of the list. */
    method SaveAndRenderRecordings()
      modifies this`storage
      ensures storage == Some(Project(recordings)) && Synced()
    {
      storage := Some(Project(recordings));
    }

    /** loadRecordings(): appends the stored entries whose id is not already
        in the list, restored without URL or payload. At start-up the list is
        empty and receives all of storage; once the list and storage agree, it
        adds nothing. */
    method LoadRecordings()
      requires Sound() && (recordings == [] || Synced())
      modifies this`recordings
      ensures Valid()
      ensures recordings == old(recordings) + Loaded(Stored(storage), Ids(old(recordings)))
      ensures old(Synced()) ==> recordings == old(recordings)
    {
      var loaded := Loaded(Stored(storage), Ids(recordings));
      if Synced() {
        LoadedOwnProjection(recordings, Ids(recordings));
        assert recordings + loaded == recordings;
      } else {
        assert Ids(recordings) == {};
        ReloadRestoresAll(Stored(storage));
        assert recordings + loaded == loaded;
      }
      LoadedRestored(Stored(storage), Ids(recordings));
      UrlsSoundAppendRestored(recordings, loaded, revoked, nextUrl);
      recordings := recordings + loaded;
    }

    /** playRecording(id): plays the first entry with that id when it has a
        URL; otherwise nothing changes. */
    method PlayRecording(id: string)
      requires Valid()
      modifies this`preview
      ensures Valid()
      ensures PlayableUrl(recordings, id).Some? ==> preview == Playback(PlayableUrl(recordings, id).value)
      ensures PlayableUrl(recordings, id).None? ==> preview == old(preview)
    {
      var rec := Find(recordings, id);
      if rec.Some? && rec.value.url.Some? {
        preview := Playback(rec.value.url.value);
      }
    }

    /** downloadRecording(id): the download of the first entry with that id,
        under its name, when it has a URL; none otherwise. */
    method DownloadRecording(id: string) returns (d: Option<Download>)
      ensures d.Some? <==> PlayableUrl(recordings, id).Some?
      ensures d.Some? ==> d.value.href == PlayableUrl(recordings, id).value
      ensures d.Some? ==> d.value.fileName == Find(recordings, id).value.name
    {
      var rec := Find(recordings, id);
      if rec.Some? && rec.value.url.Some? {
        d := Some(Download(rec.value.url.value, rec.value.name));
      } else {
        d := None;
      }
    }

    /** deleteRecording(id): revokes the URL of the first entry with that id
        if it has one, removes every entry with that id and saves the list. */
    method DeleteRecording(id: string)
      requires Valid()
      modifies this`revoked, this`recordings, this`storage
      ensures Valid()
      ensures recordings == Without(old(recordings), id)
      ensures revoked == old(revoked) + (if PlayableUrl(old(recordings), id).Some?
                                          then {PlayableUrl(old(recordings), id).value} else {})
      ensures storage == Some(Project(recordings))
    {
      UrlsSoundDelete(recordings, id, revoked, nextUrl);
      var rec := Find(recordings, id);
      if rec.Some? && rec.value.url.Some? {
        revoked := revoked + {rec.value.url.value};
      }
      recordings := Without(recordings, id);
      SaveAndRenderRecordings();
    }

    /** resetToIdle(): clears the preview and the download handler and shows the idle mode. */
    method ResetToIdle()
      requires Valid()
      modifies this`preview, this`downloadId, this`mode
      ensures Valid()
      ensures preview == Blank && downloadId.None? && mode == Idle
    {
      preview := Blank;
      downloadId := None;
      mode := Idle;
    }
  }
}
