/**
  The browser's MediaRecorder as the controller uses it (js/screen.js:183-199,
  237-250): a state ('inactive', 'recording', 'paused') and the events it
  has queued for its handlers.

  `pause()`, `resume()` and `stop()` change the state at once but deliver
  their events ('pause', 'resume', 'dataavailable' then 'stop') later, one
  by one, in order. An encoder therefore keeps the state its handlers have
  last seen and the events still to be delivered; `mediaRecorder.state` is
  the former with the latter applied.
*/
module Media {
  datatype RecorderState = Inactive | Recording | Paused

  /** The events the controller subscribes to. */
  datatype Event = PauseEvent | ResumeEvent | DataEvent | StopEvent

  /** A MediaRecorder: the state as of the last delivered event, and the events not yet delivered. */
  datatype Encoder = Encoder(handled: RecorderState, pending: seq<Event>)

  /** The state an event announces. */
  function After(s: RecorderState, e: Event): RecorderState {
    match e
      case PauseEvent => Paused
      case ResumeEvent => Recording
      case DataEvent => s
      case StopEvent => Inactive
  }

  /** The state reached from `s` once `events` have all been delivered. */
  function Replay(s: RecorderState, events: seq<Event>): RecorderState
    decreases |events|
  {
    if events == [] then s else Replay(After(s, events[0]), events[1..])
  }

  /** Queuing one more event moves the state the way that event announces. */
  lemma {:induction false} ReplayAppend(s: RecorderState, events: seq<Event>, e: Event)
    ensures Replay(s, events + [e]) == After(Replay(s, events), e)
    decreases |events|
  {
    if events == [] {
      assert events + [e] == [e];
    } else {
      assert (events + [e])[0] == events[0] && (events + [e])[1..] == events[1..] + [e];
      ReplayAppend(After(s, events[0]), events[1..], e);
    }
  }

  /** `mediaRecorder.state`; once the queue is drained it is what the handlers saw last. */
  function State(enc: Encoder): (s: RecorderState)
    ensures enc.pending == [] ==> s == enc.handled
  {
    Replay(enc.handled, enc.pending)
  }

  /** `new MediaRecorder(stream)` followed by `start()`. */
  function Started(): (enc: Encoder)
    ensures State(enc) == Recording && enc.pending == []
  {
    Encoder(Recording, [])
  }

  /** `pause()` on a recording encoder: it is paused and a 'pause' event is queued. */
  function Pause(enc: Encoder): (r: Encoder)
    requires State(enc) == Recording
    ensures State(r) == Paused && r.handled == enc.handled && r.pending == enc.pending + [PauseEvent]
  {
    ReplayAppend(enc.handled, enc.pending, PauseEvent);
    Encoder(enc.handled, enc.pending + [PauseEvent])
  }

  /** `resume()` on a paused encoder: it records again and a 'resume' event is queued. */
  function Resume(enc: Encoder): (r: Encoder)
    requires State(enc) == Paused
    ensures State(r) == Recording && r.handled == enc.handled && r.pending == enc.pending + [ResumeEvent]
  {
    ReplayAppend(enc.handled, enc.pending, ResumeEvent);
    Encoder(enc.handled, enc.pending + [ResumeEvent])
  }

  /** `stop()` on an active encoder: it becomes inactive, and the final
      'dataavailable' and then 'stop' are queued. */
  function Stop(enc: Encoder): (r: Encoder)
    requires State(enc) != Inactive
    ensures State(r) == Inactive && r.handled == enc.handled
    ensures r.pending == enc.pending + [DataEvent, StopEvent]
  {
    var once := enc.pending + [DataEvent];
    ReplayAppend(enc.handled, enc.pending, DataEvent);
    ReplayAppend(enc.handled, once, StopEvent);
    assert once + [StopEvent] == enc.pending + [DataEvent, StopEvent];
    Encoder(enc.handled, enc.pending + [DataEvent, StopEvent])
  }

  /** The next queued event reaches its handler. */
  function Deliver(enc: Encoder): (r: Encoder)
    requires enc.pending != []
    ensures State(r) == State(enc)
    ensures r.handled == After(enc.handled, enc.pending[0]) && r.pending == enc.pending[1..]
  {
    Encoder(After(enc.handled, enc.pending[0]), enc.pending[1..])
  }

  /** What togglePauseResume asks of the encoder: pause when recording,
      resume when paused, nothing when inactive. */
  function Toggled(s: RecorderState): (t: RecorderState)
    ensures s == Inactive <==> t == Inactive
    ensures s != Inactive ==> t != s
  {
    match s
      case Recording => Paused
      case Paused => Recording
      case Inactive => Inactive
  }
}
