# Screen recorder: a Dafny model of the recording controller

The page script `js/screen.js` runs a browser screen recorder. It composes
a media stream from the screen, the camera and a microphone, as the form
selects. It records that stream with a `MediaRecorder` and shows an MM:SS
timer that counts recording time only. Pause, resume and stop go through
the recorder's own events. Each finished recording goes to the front of an
in-memory list with a `blob:` object URL. The `{id, name, date}` part of the
list is saved to `localStorage`. After a reload, the saved entries come back
without a URL: they are listed but cannot be played or downloaded.

The model has five modules:

- `Timer` (timer.dfy): the timer text, with its inverse `ParseTimer`.
- `Capture` (capture.dfy): how `getMediaStreams` picks sources.
  - The browser's capture calls are a parameter `devices: Request -> Grant`.
  - The method is proved against the fold functions `Issued`,
    `FirstFailure`, `VideoFrom` and `AudioFrom` over the request plan.
- `Registry` (registry.dfy): the list operations as functions.
  - These cover the saved projection, the load filter, `find`, the
    delete filter, the file name and the blob built from chunks.
  - Lemmas relate each operation to its partner: the projection to the
    loader, the name to its parser, `find` to the filter.
- `Media` (media_recorder.dfy): the browser's `MediaRecorder`.
  - `pause()`, `resume()` and `stop()` change its state at once.
  - Their events are queued and reach the handlers later, in order.
- `Recorder` (recorder.dfy): the module-level state of the script as the
  fields of class `ScreenRecorder`, with one method per function or event
  handler.
  - Every event handler and operation that requires `Valid()` keeps it.
  - `Valid()` says that at most one timer interval runs, and only while the
    recorder's handlers last saw 'recording'.
  - It says that every URL in the list was handed out and not revoked,
    and that no URL is shared by different ids.
  - It says that storage holds the projection of the list.

The model follows the code as written, in particular:

- A failed composition does not release tracks that were already
  acquired.
- A second `startRecording` while one is starting is not rejected.
- There are no separate "requesting" or "finalizing" states. The page mode
  is one of idle, recording, paused or finished, as `updateUIMode`
  receives it.

## Model

| member | source | states |
|---|---|---|
| Timer.Digit | js/screen.js:286-287 | the character written for a digit below 10 is a decimal digit whose value is that digit |
| Timer.NatToString | js/screen.js:286-287 | `toString()` of a count gives a non-empty string of decimal digits; it has one character exactly below 10 and at most two below 100 |
| Timer.PadStart | js/screen.js:286-287 | `padStart(2, '0')` leaves a string of width two or more as it is and brings a shorter one to exactly the width |
| Timer.PadStartShape | js/screen.js:286-287 | padding only prepends fill characters: the result ends with the original string |
| Timer.ValueOfNatToString | js/screen.js:286-287 | reading the decimal string back gives the number written |
| Timer.ValueOfLeadingZero | js/screen.js:286-287 | a leading '0' does not change the value of a digit string |
| Timer.ValueOfPadded | js/screen.js:286-287 | zero-padding does not change the value of a digit string |
| Timer.TwoDigitPart | js/screen.js:287 | the seconds part (below 60) is written with exactly two characters that denote it |
| Timer.PaddedDigits | js/screen.js:286-287 | padding a digit string with '0' keeps it a digit string, at least as long |
| Timer.Format | js/screen.js:286-288 | below 100 minutes the timer text is exactly five characters, MM:SS |
| Timer.FormatShape | js/screen.js:286-288 | the timer text has at least two minute digits, then ':', then two second digits |
| Timer.ParseTimer | js/screen.js:286-288 | reading text whose seconds part is below 60 gives a count whose quotient by 60 is the minutes and whose remainder is the seconds |
| Timer.ParseJoined | js/screen.js:288 | minutes and two seconds digits joined by ':' read back as 60 times the minutes plus the seconds |
| Timer.FormatRoundTrip | js/screen.js:284-288 | minutes and seconds read back from the timer text give the elapsed seconds again |
| Timer.FormatInjective | js/screen.js:286-288 | no two counts show the same timer text |
| Timer.FormatZero | js/screen.js:170-171 | the "00:00" written at start is the text of a zero count |
| Capture.RecordType | js/screen.js:208 | with no option selected the record type is the screen alone |
| Capture.WantsMic | js/screen.js:209 | a microphone is wanted only when the select is not "none" |
| Capture.WantsSystemAudio | js/screen.js:210 | system audio is wanted only when the box is checked and the screen is included; never for the camera alone |
| Capture.TracksOf | js/screen.js:217-218 | `getVideoTracks()`/`getAudioTracks()` never return more tracks than the stream has |
| Capture.Plan | js/screen.js:215-228 | at most three requests are planned |
| Capture.PlanOrder | js/screen.js:215-228 | nothing is requested exactly when no source is selected; the display request comes first when the screen is included, and the microphone request last when one is wanted |
| Capture.CaptureScreen | js/screen.js:215-220 | the display request is issued; a refusal or a stream with no video track throws, and then no watch is set; otherwise its video tracks (and its audio tracks only when system audio was asked for) are collected, and the first video track is watched for 'ended' |
| Capture.CaptureCamera | js/screen.js:221-224 | the camera request is issued; a refusal throws; otherwise its video tracks are collected |
| Capture.CaptureMicrophone | js/screen.js:225-228 | the request for the exact chosen device is issued; a refusal throws; otherwise its audio tracks are collected |
| Capture.ScreenPhase | js/screen.js:215-220 | the display block runs exactly when the record type includes the screen, and then a watch is set exactly when nothing threw; when something threw there is no watch |
| Capture.CameraPhase | js/screen.js:221-224 | the camera block runs only for a camera type and only when nothing threw before; the video collected so far is kept as a prefix |
| Capture.MicrophonePhase | js/screen.js:225-228 | the microphone block runs only when a microphone is wanted and nothing threw before |
| Capture.GetMediaStreams | js/screen.js:206-235 | the requests issued are the plan up to the first failing step; the first failure is the result; with no failure and no video track the result is null; otherwise the stream is all video tracks then all audio tracks, with the first screen track watched when the screen is included |
| Capture.TracksOfExactly | js/screen.js:217-218 | `getVideoTracks()`/`getAudioTracks()` keep exactly the stream's tracks of that kind |
| Capture.VideoFromIsVideo | js/screen.js:217-223 | every track collected as video is a video track |
| Capture.AudioFromIsAudio | js/screen.js:218-227 | every track collected as audio is an audio track |
| Capture.ComposedOrder | js/screen.js:230 | with no failure, the composed stream is the screen's video, the camera's video, the screen's audio, then the microphone's audio |
| Capture.VideoBeforeAudio | js/screen.js:230 | in the composed stream no video track comes after an audio track |
| Capture.NoFailureIffNoStepFails | js/screen.js:214-234 | no error is reported exactly when no planned step is refused and the display grant has a video track |
| Capture.IssuedPrefix | js/screen.js:214-234 | the issued requests are a prefix of the plan; they stop at the failing step, or cover the whole plan when none fails |
| Capture.PlannedRequests | js/screen.js:208-226 | system audio is asked for exactly when the box is checked and the screen is included; the camera exactly for "camera"/"both"; a microphone, the selected one, exactly when the select is not "none" |
| Capture.ScreenWithSystemAudio | js/screen.js:208-230 | the default screen type with system audio and no microphone makes one display request and composes its video then its audio tracks |
| Capture.CameraThenRefusedMicrophone | js/screen.js:221-233 | a refused microphone after a granted camera makes both requests and yields a permission error, not a stream |
| Registry.Flatten | js/screen.js:254 | no chunks give no bytes; one chunk gives its bytes |
| Registry.Payload | js/screen.js:254 | the blob of no chunks is empty |
| Registry.FlattenAppend | js/screen.js:254 | a chunk that arrives later lands after everything that arrived before it |
| Registry.FlattenLength | js/screen.js:254 | the blob's size is the sum of the chunk sizes |
| Registry.RecordingName | js/screen.js:258 | the name is `recording-`, the id, then `.webm` |
| Registry.NameRoundTrip | js/screen.js:258 | the id is recovered from the name |
| Registry.NameInjective | js/screen.js:258 | distinct ids give distinct names |
| Registry.MetaOf | js/screen.js:297 | the saved entry keeps the recording's id, name and date |
| Registry.Project | js/screen.js:297 | the saved metadata has one entry per recording |
| Registry.ProjectAt | js/screen.js:297 | each saved entry is the `{id, name, date}` of the recording at the same position |
| Registry.ProjectAppend | js/screen.js:297 | the projection distributes over concatenation |
| Registry.Stored | js/screen.js:303 | a missing key reads as no saved entries |
| Registry.Ids | js/screen.js:304 | the session id set holds every entry's id, and is empty for an empty list |
| Registry.Restore | js/screen.js:305 | a restored entry has the saved id, name and date and no URL or blob |
| Registry.Loaded | js/screen.js:303-305 | loading adds at most as many entries as were saved |
| Registry.LoadedRestored | js/screen.js:304-305 | no loaded entry has an id already in the session, and none has a URL or blob |
| Registry.LoadedExactly | js/screen.js:304-305 | a saved entry is restored exactly when its id is not in the session |
| Registry.LoadedAppend | js/screen.js:305 | loading keeps the saved order |
| Registry.ReloadRestoresAll | js/screen.js:296-308 | saving and then loading into an empty list gives back the saved metadata |
| Registry.LoadedOwnProjection | js/screen.js:302-306 | loading the list's own projection adds nothing |
| Registry.FindIndex | js/screen.js:337 | a found index holds an entry with the id |
| Registry.FindIndexFirst | js/screen.js:337 | the index found is the first with the id; none is found only when no entry has it |
| Registry.Find | js/screen.js:337 | a found entry is in the list and has the id |
| Registry.FindFirst | js/screen.js:337 | a lookup succeeds exactly when the id is in the list, and yields the first entry with that id |
| Registry.PlayableUrl | js/screen.js:336-344 | a URL to play is the URL of the entry at the first index with the id |
| Registry.NotPlayable | js/screen.js:336-344 | an absent id, or a first entry without a URL, gives nothing to play, download or revoke |
| Registry.FindPrepended | js/screen.js:259-264 | the recording put at the front is the one a lookup of its id finds, with its URL |
| Registry.Without | js/screen.js:361 | deleting never adds entries |
| Registry.WithoutMembers | js/screen.js:361 | the entries kept are exactly those with another id |
| Registry.WithoutAppend | js/screen.js:361 | deleting keeps the remaining entries in their order |
| Registry.WithoutNone | js/screen.js:361 | a filter matching no entry keeps the list |
| Registry.WithoutAbsent | js/screen.js:361 | deleting an absent id changes nothing |
| Registry.WithoutRemovesId | js/screen.js:361 | after a delete no entry has the id and a lookup finds nothing |
| Registry.WithoutIdempotent | js/screen.js:361 | deleting twice is deleting once |
| Registry.SessionFirst | js/screen.js:302-306 | after loading, restored entries never shadow a session entry of the same id |
| Registry.RestoredNotPlayable | js/screen.js:305 | after loading, an id the session did not have is never playable |
| Media.State | js/screen.js:238-244 | with no events pending, the state the recorder reports is the one its handlers last saw |
| Media.ReplayAppend | js/screen.js:185-196 | queuing one more event moves the state the way that event announces |
| Media.Started | js/screen.js:184-199 | a started recorder is recording, with no events queued |
| Media.Pause | js/screen.js:239 | `pause()` makes the state paused and queues one 'pause' event |
| Media.Resume | js/screen.js:240 | `resume()` makes the state recording and queues one 'resume' event |
| Media.Stop | js/screen.js:244-246 | `stop()` makes the state inactive and queues 'dataavailable' then 'stop' |
| Media.Deliver | js/screen.js:185-196 | delivering an event to its handler does not change the recorder's state |
| Media.Toggled | js/screen.js:237-241 | toggling pauses a recording and resumes a paused recorder; an inactive one stays inactive |
| Recorder.UrlsSoundAppendRestored | js/screen.js:305-306 | appending restored entries keeps the list's URLs sound |
| Recorder.UrlsSoundPrepend | js/screen.js:256-259 | a recording with a fresh URL keeps the URLs sound, and no earlier entry has that URL |
| Recorder.UrlsSoundDelete | js/screen.js:358-361 | revoking the first entry's URL and removing the id keeps the URLs sound |
| Recorder.ScreenRecorder.constructor | js/screen.js:19-33 | the page starts idle with no recorder, stream or timer; the list holds exactly the saved entries, restored |
| Recorder.ScreenRecorder.StopTimer | js/screen.js:292-294 | after clearInterval no interval runs |
| Recorder.ScreenRecorder.StartTimer | js/screen.js:282-290 | the old interval is cleared and exactly one fresh interval runs |
| Recorder.ScreenRecorder.Tick | js/screen.js:284-289 | a tick adds one second and shows it as the timer text, which reads back to the count; ticks happen only while the handlers last saw 'recording' |
| Recorder.ScreenRecorder.StartRecording | js/screen.js:165-204 | chunks, count and text are reset; the requests are those of the plan; with no stream the page returns to idle; with one it is previewed and, when the recorder can be created, recording starts with exactly one fresh timer interval; otherwise the page returns to idle and no interval is created |
| Recorder.ScreenRecorder.ContinueStart | js/screen.js:174-203 | the part of startRecording after the await: the null path, the preview, the recorder and the catch block |
| Recorder.ScreenRecorder.StartRecorder | js/screen.js:184-199 | a new recorder is started, with exactly one fresh timer interval |
| Recorder.ScreenRecorder.ResetSession | js/screen.js:167-171 | the recording mode, no chunks, a zero count and "00:00" |
| Recorder.ScreenRecorder.TogglePauseResume | js/screen.js:237-241 | a missing recorder is left alone; a recording recorder is paused and a paused one resumed, each queuing its event; an inactive one is left alone |
| Recorder.ScreenRecorder.StopRecording | js/screen.js:243-250 | an active recorder is stopped, an inactive one is left alone, and every track of the stream is stopped |
| Recorder.ScreenRecorder.OnPause | js/screen.js:187-191 | the 'pause' event stops the timer and shows the paused mode |
| Recorder.ScreenRecorder.OnResume | js/screen.js:192-196 | the 'resume' event runs exactly one fresh timer interval again and shows the recording mode |
| Recorder.ScreenRecorder.OnDataAvailable | js/screen.js:185 | the chunk is appended, and the payload grows by its bytes at the end |
| Recorder.ScreenRecorder.HandleStop | js/screen.js:252-268 | no timer runs and no chunks are left; a recording `recording-<id>.webm` with the next fresh URL and the chunks' payload is at the front, found first by its id; it is previewed and set for download; the page is finished and storage holds the new list |
| Recorder.ScreenRecorder.FinishRecorder | js/screen.js:252-253 | the 'stop' event reaches its handler, which clears the interval |
| Recorder.ScreenRecorder.StoreRecording | js/screen.js:254-267 | the chunks become the payload of a recording with the next fresh URL, which no other entry has, put at the front; no chunks are left; the list is saved |
| Recorder.ScreenRecorder.ShowFinished | js/screen.js:261-266 | the new recording is previewed, the download button downloads it, the mode is finished |
| Recorder.ScreenRecorder.SaveAndRenderRecordings | js/screen.js:296-300 | storage holds the projection of the list |
| Recorder.ScreenRecorder.LoadRecordings | js/screen.js:302-308 | the saved entries with new ids are appended, restored; once list and storage agree, nothing is added |
| Recorder.ScreenRecorder.PlayRecording | js/screen.js:336-344 | the first entry with the id is played when it has a URL; otherwise the preview is unchanged |
| Recorder.ScreenRecorder.DownloadRecording | js/screen.js:346-356 | a download happens exactly when the first entry with the id has a URL; it uses that URL and that entry's name as the file name |
| Recorder.ScreenRecorder.DeleteRecording | js/screen.js:358-363 | only the first entry's URL is revoked, if any; every entry with the id is removed; the list is saved |
| Recorder.ScreenRecorder.ResetToIdle | js/screen.js:135-142 | the preview and the download handler are cleared and the mode is idle |

## Left out

- The DOM is not modelled.
  - `updateUIMode` is the `mode` field.
  - The preview element is the `preview` field.
  - The download button's handler is `downloadId`.
  - `renderRecordingsList` and the click dispatch of `handleListClick` are not part of this model. They only draw the list and route clicks to the modelled play, download and delete operations.
  - `previewVideo.play()`, the `controls` and `muted` flags and the pause button's `data-status` are not modelled either.
- Settings and device listing are not part of this model: `populateMicList`, `loadSettings`, `saveSettings` and the settings modal. They do not touch the recording state.
- The browser APIs are inputs.
  - `getDisplayMedia` and `getUserMedia` are the `devices` parameter.
  - Whether `new MediaRecorder` throws (for example on an unsupported `mimeType`) is the `encoderOk` parameter. The `mimeType` option itself is not modelled.
  - `Date.now()` and `toLocaleString()` are the `now` and `date` parameters of `HandleStop`.
- Storage and JSON are simplified. `localStorage` holds an `Option<seq<Meta>>`, with None for a missing key. Malformed JSON, which would make `JSON.parse` throw, is not modelled.
- Concurrency is simplified.
  - `startRecording`'s `await` is the split between `GetMediaStreams` and `ContinueStart`.
  - Other handlers run atomically.
  - Events of a recorder that a later `startRecording` replaced are not modelled.
- Recorder.ScreenRecorder.StartRecording: the 'ended' listener is the `endedWatch` of the composition, and stopping is `StopRecording`. The model does not record the listener that is left on a stream whose composition then failed. It also does not record partially acquired tracks that are never stopped.
- Capture.GetMediaStreams: the text of the "Permission Error" alert is the error's message, and showing the alert is not modelled.
- Recorder.ScreenRecorder.DeleteRecording: the preview may still name a URL after it is revoked. The model does not track what the video element then shows.
- Recorder.ScreenRecorder.constructor: the page's initial "00:00" timer text comes from the HTML, which is not part of this model. The constructor sets it directly.
- Timer: minutes are not capped. Past 99 minutes the text grows beyond five characters, and `FormatRoundTrip` covers that case.
