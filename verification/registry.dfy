/**
  The recordings list and its persisted metadata (js/screen.js:252-363).

  A recording is `{id, name, date, url, blob}`: a recording finished in
  this session carries an object URL and its payload; one restored from
  storage carries neither. Storage holds the `{id, name, date}` projection
  of the list. This module holds the list operations as functions; the
  class in the Recorder module applies them to its fields.
*/
module Registry {
  import opened Wrappers

  newtype Byte = b: int | 0 <= b < 256

  /** One `dataavailable` payload. */
  type Chunk = seq<Byte>

  /** A `blob:` object URL, identified by the handle the browser allocated. */
  datatype Url = ObjectUrl(handle: nat)

  /** A `video/webm` Blob: its bytes. */
  datatype Blob = Blob(bytes: seq<Byte>)

  /** An entry of `recordings`; `url` and `blob` are `null` for restored entries. */
  datatype Entry = Entry(id: string, name: string, date: string, url: Option<Url>, blob: Option<Blob>)

  /** A persisted entry: the `{id, name, date}` part of a recording. */
  datatype Meta = Meta(id: string, name: string, date: string)

  /** The bytes of a sequence of chunks, in arrival order. */
  function Flatten(chunks: seq<Chunk>): (bytes: seq<Byte>)
    ensures chunks == [] ==> bytes == []
    ensures |chunks| == 1 ==> bytes == chunks[0]
  {
    if chunks == [] then [] else chunks[0] + Flatten(chunks[1..])
  }

  /** `new Blob(recordedChunks, {type: 'video/webm'})`. */
  function Payload(chunks: seq<Chunk>): (b: Blob)
    ensures chunks == [] ==> b.bytes == []
  {
    Blob(Flatten(chunks))
  }

  /** A chunk that arrives later lands after everything that arrived before it. */
  lemma {:induction false} FlattenAppend(chunks: seq<Chunk>, c: Chunk)
    ensures Flatten(chunks + [c]) == Flatten(chunks) + c
    decreases |chunks|
  {
    if chunks == [] {
      assert chunks + [c] == [c];
    } else {
      assert (chunks + [c])[1..] == chunks[1..] + [c];
      FlattenAppend(chunks[1..], c);
    }
  }

  /** The payload size is the total size of the chunks. */
  lemma {:induction false} FlattenLength(chunks: seq<Chunk>, sizes: seq<nat>)
    requires |sizes| == |chunks|
    requires forall i :: 0 <= i < |chunks| ==> |chunks[i]| == sizes[i]
    ensures |Flatten(chunks)| == Sum(sizes)
    decreases |chunks|
  {
    if chunks != [] {
      FlattenLength(chunks[1..], sizes[1..]);
    }
  }

  function Sum(xs: seq<nat>): nat {
    if xs == [] then 0 else xs[0] + Sum(xs[1..])
  }

  const NamePrefix: string := "recording-"
  const NameSuffix: string := ".webm"

  /** The file name of a recording: `recording-<id>.webm`. */
  function RecordingName(id: string): (name: string)
    ensures |name| == |id| + 15
    ensures name[..10] == NamePrefix && name[|name| - 5..] == NameSuffix
  {
    NamePrefix + id + NameSuffix
  }

  /** The id a recording file name was made from, if it has that form. */
  function IdOfName(name: string): Option<string> {
    if |name| >= 15 && name[..10] == NamePrefix && name[|name| - 5..] == NameSuffix
    then Some(name[10..|name| - 5])
    else None
  }

  /** The id can be read back from the name. */
  lemma NameRoundTrip(id: string)
    ensures IdOfName(RecordingName(id)) == Some(id)
  {
    var name := RecordingName(id);
    assert name[10..|name| - 5] == id;
  }

  /** Distinct ids give distinct names. */
  lemma NameInjective(id1: string, id2: string)
    requires RecordingName(id1) == RecordingName(id2)
    ensures id1 == id2
  {
    NameRoundTrip(id1);
    NameRoundTrip(id2);
  }

  /** The `{id, name, date}` part of one recording. */
  function MetaOf(r: Entry): (m: Meta)
    ensures m.id == r.id && m.name == r.name && m.date == r.date
  {
    Meta(r.id, r.name, r.date)
  }

  /** `recordings.map(({id, name, date}) => ({id, name, date}))`: what is persisted. */
  function Project(recs: seq<Entry>): (ms: seq<Meta>)
    ensures |ms| == |recs|
  {
    if recs == [] then [] else [MetaOf(recs[0])] + Project(recs[1..])
  }

  /** Each persisted entry is the `{id, name, date}` part of the recording at
      the same position: same length, same order. */
  lemma {:induction false} ProjectAt(recs: seq<Entry>)
    ensures forall i :: 0 <= i < |recs| ==> Project(recs)[i] == MetaOf(recs[i])
    decreases |recs|
  {
    if recs != [] {
      ProjectAt(recs[1..]);
      forall i | 0 < i < |recs|
        ensures Project(recs)[i] == MetaOf(recs[i])
      {
        assert Project(recs)[i] == Project(recs[1..])[i - 1];
        assert recs[1..][i - 1] == recs[i];
      }
    }
  }

  /** The projection distributes over concatenation. */
  lemma {:induction false} ProjectAppend(a: seq<Entry>, b: seq<Entry>)
    ensures Project(a + b) == Project(a) + Project(b)
    decreases |a|
  {
    if a == [] {
      assert a + b == b;
    } else {
      assert (a + b)[0] == a[0] && (a + b)[1..] == a[1..] + b;
      ProjectAppend(a[1..], b);
      calc {
        Project(a + b);
        [MetaOf(a[0])] + Project(a[1..] + b);
        [MetaOf(a[0])] + (Project(a[1..]) + Project(b));
        ([MetaOf(a[0])] + Project(a[1..])) + Project(b);
      }
    }
  }

  /** `new Set(recordings.map(r => r.id))`. */
  function Ids(recs: seq<Entry>): (ids: set<string>)
    ensures forall i :: 0 <= i < |recs| ==> recs[i].id in ids
    ensures recs == [] ==> ids == {}
  {
    set i | 0 <= i < |recs| :: recs[i].id
  }

  /** `JSON.parse(localStorage.getItem('screenRecordings')) || []`: the
      persisted entries, none when nothing was saved. */
  function Stored(saved: Option<seq<Meta>>): (ms: seq<Meta>)
    ensures saved.None? ==> ms == []
  {
    if saved.Some? then saved.value else []
  }

  /** A persisted entry restored into the list: `{...m, url: null, blob: null}`. */
  function Restore(m: Meta): (r: Entry)
    ensures MetaOf(r) == m && r.url.None? && r.blob.None?
  {
    Entry(m.id, m.name, m.date, None, None)
  }

  /** The entries `loadRecordings` appends: the persisted entries whose id is
      not among `sessionIds`, in persisted order, restored without URL or payload. */
  function Loaded(meta: seq<Meta>, sessionIds: set<string>): (rs: seq<Entry>)
    ensures |rs| <= |meta|
  {
    if meta == [] then []
    else (if meta[0].id in sessionIds then [] else [Restore(meta[0])]) + Loaded(meta[1..], sessionIds)
  }

  /** No restored entry shares an id with the session, and none has a URL or payload. */
  lemma {:induction false} LoadedRestored(meta: seq<Meta>, sessionIds: set<string>)
    ensures forall r :: r in Loaded(meta, sessionIds) ==> r.id !in sessionIds && r.url.None? && r.blob.None?
    decreases |meta|
  {
    if meta != [] {
      LoadedRestored(meta[1..], sessionIds);
    }
  }

  /** Exactly the persisted entries whose id is new are restored. */
  lemma {:induction false} LoadedExactly(meta: seq<Meta>, sessionIds: set<string>, m: Meta)
    ensures Restore(m) in Loaded(meta, sessionIds) <==> m in meta && m.id !in sessionIds
    decreases |meta|
  {
    if meta != [] {
      LoadedExactly(meta[1..], sessionIds, m);
      assert meta == [meta[0]] + meta[1..];
      var head := if meta[0].id in sessionIds then [] else [Restore(meta[0])];
      assert Restore(m) in head <==> m == meta[0] && m.id !in sessionIds;
    }
  }

  /** Loading preserves the persisted order: it distributes over concatenation. */
  lemma {:induction false} LoadedAppend(a: seq<Meta>, b: seq<Meta>, sessionIds: set<string>)
    ensures Loaded(a + b, sessionIds) == Loaded(a, sessionIds) + Loaded(b, sessionIds)
    decreases |a|
  {
    if a == [] {
      assert a + b == b;
    } else {
      var head := if a[0].id in sessionIds then [] else [Restore(a[0])];
      assert (a + b)[0] == a[0] && (a + b)[1..] == a[1..] + b;
      LoadedAppend(a[1..], b, sessionIds);
      calc {
        Loaded(a + b, sessionIds);
        head + Loaded(a[1..] + b, sessionIds);
        head + (Loaded(a[1..], sessionIds) + Loaded(b, sessionIds));
        (head + Loaded(a[1..], sessionIds)) + Loaded(b, sessionIds);
      }
    }
  }

  /** Reloading into an empty session restores the persisted list itself. */
  lemma {:induction false} ReloadRestoresAll(meta: seq<Meta>)
    ensures Project(Loaded(meta, {})) == meta
    decreases |meta|
  {
    if meta != [] {
      ReloadRestoresAll(meta[1..]);
      assert Loaded(meta, {}) == [Restore(meta[0])] + Loaded(meta[1..], {});
      ProjectAppend([Restore(meta[0])], Loaded(meta[1..], {}));
    }
  }

  /** Loading the projection of the session itself adds nothing. */
  lemma {:induction false} LoadedOwnProjection(recs: seq<Entry>, sessionIds: set<string>)
    requires Ids(recs) <= sessionIds
    ensures Loaded(Project(recs), sessionIds) == []
    decreases |recs|
  {
    if recs != [] {
      assert recs[0].id in Ids(recs);
      assert Ids(recs[1..]) <= Ids(recs) by {
        forall i | 0 <= i < |recs[1..]| ensures recs[1..][i].id in Ids(recs) {
          assert recs[1..][i] == recs[i + 1];
        }
      }
      LoadedOwnProjection(recs[1..], sessionIds);
      assert Project(recs)[1..] == Project(recs[1..]);
    }
  }

  /** `recordings.find(r => r.id === id)`, as an index. */
  function FindIndex(recs: seq<Entry>, id: string): (k: Option<nat>)
    ensures k.Some? ==> k.value < |recs| && recs[k.value].id == id
  {
    if recs == [] then None
    else if recs[0].id == id then Some(0)
    else match FindIndex(recs[1..], id)
      case None => None
      case Some(k) => Some(k + 1)
  }

  /** The index found is that of the first entry with the id; none is found
      only when no entry has it. */
  lemma {:induction false} FindIndexFirst(recs: seq<Entry>, id: string)
    ensures var k := FindIndex(recs, id);
      && (k.Some? ==> forall j :: 0 <= j < k.value ==> recs[j].id != id)
      && (k.None? ==> forall j :: 0 <= j < |recs| ==> recs[j].id != id)
    decreases |recs|
  {
    if recs != [] && recs[0].id != id {
      FindIndexFirst(recs[1..], id);
      assert forall j :: 0 < j < |recs| ==> recs[j] == recs[1..][j - 1];
    }
  }

  /** `recordings.find(r => r.id === id)`. */
  function Find(recs: seq<Entry>, id: string): (r: Option<Entry>)
    ensures r.Some? ==> r.value in recs && r.value.id == id
  {
    match FindIndex(recs, id)
      case None => None
      case Some(k) => Some(recs[k])
  }

  /** A lookup succeeds exactly when the id is in the list, and then yields
      an entry with no earlier entry of the same id. */
  lemma FindFirst(recs: seq<Entry>, id: string)
    ensures Find(recs, id).Some? <==> id in Ids(recs)
    ensures Find(recs, id).Some? ==>
      exists k :: 0 <= k < |recs| && recs[k] == Find(recs, id).value && forall j :: 0 <= j < k ==> recs[j].id != id
  {
    FindIndexFirst(recs, id);
    var k := FindIndex(recs, id);
    if k.Some? {
      assert recs[k.value].id in Ids(recs);
    }
  }

  /** The URL `playRecording`/`downloadRecording` act on: that of the first entry
      with the id, when the id is present and that entry has a URL. */
  function PlayableUrl(recs: seq<Entry>, id: string): (u: Option<Url>)
    ensures u.Some? ==> var k := FindIndex(recs, id); k.Some? && recs[k.value].url == u
  {
    var r := Find(recs, id);
    if r.Some? && r.value.url.Some? then r.value.url else None
  }

  /** An id not in the list, or a first entry restored without URL, has no playable URL. */
  lemma NotPlayable(recs: seq<Entry>, id: string)
    requires id !in Ids(recs) || (Find(recs, id).Some? && Find(recs, id).value.url.None?)
    ensures PlayableUrl(recs, id).None?
  {
    FindFirst(recs, id);
  }

  /** A recording put at the front of the list is the one a lookup of its id finds. */
  lemma FindPrepended(r: Entry, recs: seq<Entry>)
    ensures Find([r] + recs, r.id) == Some(r)
    ensures PlayableUrl([r] + recs, r.id) == r.url
  {
    assert ([r] + recs)[0] == r;
  }

  /** `recordings.filter(r => r.id !== id)`. */
  function Without(recs: seq<Entry>, id: string): (rs: seq<Entry>)
    ensures |rs| <= |recs|
  {
    if recs == [] then []
    else (if recs[0].id == id then [] else [recs[0]]) + Without(recs[1..], id)
  }

  /** The entries kept are exactly those with another id. */
  lemma {:induction false} WithoutMembers(recs: seq<Entry>, id: string)
    ensures forall r :: r in Without(recs, id) <==> r in recs && r.id != id
    decreases |recs|
  {
    if recs != [] {
      WithoutMembers(recs[1..], id);
      assert recs == [recs[0]] + recs[1..];
    }
  }

  /** Deleting keeps the remaining entries in their order: the filter
      distributes over concatenation. */
  lemma {:induction false} WithoutAppend(a: seq<Entry>, b: seq<Entry>, id: string)
    ensures Without(a + b, id) == Without(a, id) + Without(b, id)
    decreases |a|
  {
    if a == [] {
      assert a + b == b;
    } else {
      var head := if a[0].id == id then [] else [a[0]];
      assert (a + b)[0] == a[0] && (a + b)[1..] == a[1..] + b;
      WithoutAppend(a[1..], b, id);
      calc {
        Without(a + b, id);
        head + Without(a[1..] + b, id);
        head + (Without(a[1..], id) + Without(b, id));
        (head + Without(a[1..], id)) + Without(b, id);
      }
    }
  }

  /** A filter that matches no entry keeps the list as it is. */
  lemma {:induction false} WithoutNone(recs: seq<Entry>, id: string)
    requires forall i :: 0 <= i < |recs| ==> recs[i].id != id
    ensures Without(recs, id) == recs
    decreases |recs|
  {
    if recs != [] {
      WithoutNone(recs[1..], id);
      assert recs == [recs[0]] + recs[1..];
    }
  }

  /** Deleting an id that is not in the list changes nothing. */
  lemma WithoutAbsent(recs: seq<Entry>, id: string)
    requires id !in Ids(recs)
    ensures Without(recs, id) == recs
  {
    WithoutNone(recs, id);
  }

  /** After deleting an id, no entry has it and a lookup finds nothing. */
  lemma WithoutRemovesId(recs: seq<Entry>, id: string)
    ensures id !in Ids(Without(recs, id))
    ensures Find(Without(recs, id), id).None?
  {
    var rs := Without(recs, id);
    WithoutMembers(recs, id);
    forall i | 0 <= i < |rs| ensures rs[i].id != id {
      assert rs[i] in rs;
    }
    FindFirst(rs, id);
  }

  /** Deleting the same id twice is the same as deleting it once. */
  lemma WithoutIdempotent(recs: seq<Entry>, id: string)
    ensures Without(Without(recs, id), id) == Without(recs, id)
  {
    WithoutRemovesId(recs, id);
    WithoutAbsent(Without(recs, id), id);
  }

  /** After loading, a lookup of a session id finds the session entry: the
      restored entries never shadow the ones recorded in this session. */
  lemma SessionFirst(session: seq<Entry>, meta: seq<Meta>, id: string)
    requires id in Ids(session)
    ensures Find(session + Loaded(meta, Ids(session)), id) == Find(session, id)
  {
    var all := session + Loaded(meta, Ids(session));
    FindFirst(session, id);
    FindIndexFirst(session, id);
    FindIndexFirst(all, id);
    var k := FindIndex(session, id).value;
    assert all[k] == session[k];
  }

  /** After loading, an id the session did not have is never playable:
      restored entries carry no URL. */
  lemma RestoredNotPlayable(session: seq<Entry>, meta: seq<Meta>, id: string)
    requires id !in Ids(session)
    ensures PlayableUrl(session + Loaded(meta, Ids(session)), id).None?
  {
    var all := session + Loaded(meta, Ids(session));
    LoadedRestored(meta, Ids(session));
    var k := FindIndex(all, id);
    if k.Some? && k.value >= |session| {
      assert all[k.value] in Loaded(meta, Ids(session));
    }
  }
}
