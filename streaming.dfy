/**
 * The streaming response accumulator: it folds the fragments of one response into a growing text
 * and a list of web citations deduplicated by URI, writes both into the placeholder message after
 * every fragment, and stops at the first fragment taken after the user asked to stop.
 */
module Streaming {

  import opened Types
  import opened Seqs

  datatype WebSource = WebSource(uri: Option<string>, title: Option<string>)
  datatype GroundingChunk = GroundingChunk(web: Option<WebSource>)
  datatype GroundingMetadata = GroundingMetadata(groundingChunks: Option<seq<GroundingChunk>>)
  datatype Candidate = Candidate(groundingMetadata: Option<GroundingMetadata>)

  /** One fragment of a streamed response. */
  datatype Fragment = Fragment(text: Option<string>, candidates: Option<seq<Candidate>>)

  /** A fragment as the loop takes it, with the value the stop flag has at that moment. */
  datatype Delivery = Delivery(stopRequested: bool, fragment: Fragment)

  /** The text a fragment contributes; an absent or empty text contributes nothing. */
  function FragmentText(f: Fragment): string
  {
    if f.text.Some? && f.text.value != "" then f.text.value else ""
  }

  /** The grounding chunks of the first candidate, when it has grounding metadata. */
  function GroundingChunksOf(f: Fragment): seq<GroundingChunk>
  {
    if f.candidates.Some? && |f.candidates.value| > 0
       && f.candidates.value[0].groundingMetadata.Some?
       && f.candidates.value[0].groundingMetadata.value.groundingChunks.Some?
    then f.candidates.value[0].groundingMetadata.value.groundingChunks.value
    else []
  }

  /** The citation a grounding chunk stands for: only a web reference with a non-empty URI and a non-empty title. */
  function Citation(g: GroundingChunk): (c: Option<GroundingSource>)
    ensures c.Some? ==> c.value.uri != "" && c.value.title != ""
    ensures c.Some? <==> (g.web.Some? && g.web.value.uri.Some? && g.web.value.uri.value != "" &&
                          g.web.value.title.Some? && g.web.value.title.value != "")
    ensures (g.web.Some? && g.web.value.uri.Some? && g.web.value.uri.value != "" &&
               g.web.value.title.Some? && g.web.value.title.value != "") ==>
      c == Some(GroundingSource(g.web.value.title.value, g.web.value.uri.value))
  {
    if g.web.Some? && g.web.value.uri.Some? && g.web.value.uri.value != ""
       && g.web.value.title.Some? && g.web.value.title.value != ""
    then Some(GroundingSource(g.web.value.title.value, g.web.value.uri.value))
    else None
  }

  predicate HasUri(sources: seq<GroundingSource>, uri: string)
  {
    exists i :: 0 <= i < |sources| && sources[i].uri == uri
  }

  /** Adds the citation of `g`, unless a source with that URI is already listed. */
  function AddCitation(sources: seq<GroundingSource>, g: GroundingChunk): seq<GroundingSource>
  {
    match Citation(g)
    case None => sources
    case Some(c) => if HasUri(sources, c.uri) then sources else sources + [c]
  }

  /** Adds the citations of `gs`, in order, to `sources`. */
  function MergeCitations(sources: seq<GroundingSource>, gs: seq<GroundingChunk>): seq<GroundingSource>
  {
    if gs == [] then sources else AddCitation(MergeCitations(sources, gs[..|gs| - 1]), gs[|gs| - 1])
  }

  predicate UniqueUris(sources: seq<GroundingSource>)
  {
    forall i, j :: 0 <= i < j < |sources| ==> sources[i].uri != sources[j].uri
  }

  /** Merging in two batches is merging their concatenation. */
  lemma {:induction false} MergeCitationsAppend(sources: seq<GroundingSource>, a: seq<GroundingChunk>, b: seq<GroundingChunk>)
    ensures MergeCitations(sources, a + b) == MergeCitations(MergeCitations(sources, a), b)
  {
    if b == [] {
      assert a + b == a;
    } else {
      assert (a + b)[..|a + b| - 1] == a + b[..|b| - 1];
      MergeCitationsAppend(sources, a, b[..|b| - 1]);
    }
  }

  /**
   * Merging keeps what was listed, in place, and adds only citations of `gs`; it keeps URIs unique,
   * and afterwards every citation of `gs` has its URI listed.
   */
  lemma {:induction false} MergeCitationsSpec(sources: seq<GroundingSource>, gs: seq<GroundingChunk>)
    ensures var r := MergeCitations(sources, gs);
      |sources| <= |r| && r[..|sources|] == sources &&
      (forall j :: |sources| <= j < |r| ==> exists i :: 0 <= i < |gs| && Citation(gs[i]) == Some(r[j])) &&
      (UniqueUris(sources) ==> UniqueUris(r)) &&
      (forall i :: 0 <= i < |gs| && Citation(gs[i]).Some? ==> HasUri(r, Citation(gs[i]).value.uri))
  {
    if gs != [] {
      var init := gs[..|gs| - 1];
      var g := gs[|gs| - 1];
      MergeCitationsSpec(sources, init);
      var p := MergeCitations(sources, init);
      var r := MergeCitations(sources, gs);
      assert r == AddCitation(p, g);
      assert r[..|p|] == p;
      assert r[..|sources|] == p[..|sources|];
      forall j | |sources| <= j < |r|
        ensures exists i :: 0 <= i < |gs| && Citation(gs[i]) == Some(r[j])
      {
        if j < |p| {
          assert r[j] == p[j];
          var i :| 0 <= i < |init| && Citation(init[i]) == Some(p[j]);
          assert gs[i] == init[i];
        } else {
          assert Citation(gs[|gs| - 1]) == Some(r[j]);
        }
      }
      forall i | 0 <= i < |gs| && Citation(gs[i]).Some?
        ensures HasUri(r, Citation(gs[i]).value.uri)
      {
        if i < |init| {
          assert gs[i] == init[i];
          var k :| 0 <= k < |p| && p[k].uri == Citation(init[i]).value.uri;
          assert r[k] == p[k];
        } else if !HasUri(p, Citation(g).value.uri) {
          assert r[|p|] == Citation(g).value;
        }
      }
    }
  }

  /**
   * The first title wins: when no listed source and no earlier chunk has the URI of the citation of
   * `gs[j]`, that citation itself, with its title, ends up in the list.
   */
  lemma {:induction false} FirstTitleWins(sources: seq<GroundingSource>, gs: seq<GroundingChunk>, j: nat)
    requires j < |gs| && Citation(gs[j]).Some?
    requires !HasUri(sources, Citation(gs[j]).value.uri)
    requires forall i :: 0 <= i < j && Citation(gs[i]).Some? ==> Citation(gs[i]).value.uri != Citation(gs[j]).value.uri
    ensures Citation(gs[j]).value in MergeCitations(sources, gs)
  {
    var init := gs[..|gs| - 1];
    var c := Citation(gs[j]).value;
    var p := MergeCitations(sources, init);
    if j == |gs| - 1 {
      MergeCitationsSpec(sources, init);
      assert MergeCitations(sources, gs) == p + [c];
    } else {
      assert init[j] == gs[j];
      FirstTitleWins(sources, init, j);
      MergeCitationsSpec(sources, init);
      var r := MergeCitations(sources, gs);
      assert r[..|p|] == p;
      var k :| 0 <= k < |p| && p[k] == c;
      assert r[k] == c;
    }
  }

  /** The position of the first delivery taken after a stop request, or the number of deliveries. */
  function StopIndex(ds: seq<Delivery>): (k: nat)
    ensures k <= |ds|
    ensures forall i :: 0 <= i < k ==> !ds[i].stopRequested
    ensures k < |ds| ==> ds[k].stopRequested
  {
    FirstIndex(ds, (d: Delivery) => d.stopRequested)
  }

  function Fragments(ds: seq<Delivery>): seq<Fragment>
  {
    Map(ds, (d: Delivery) => d.fragment)
  }

  /** The fragments that are applied: those before the first stop. */
  function Received(ds: seq<Delivery>): seq<Fragment>
  {
    Fragments(ds[..StopIndex(ds)])
  }

  /** The concatenated text of the fragments, in order, with nothing in between. */
  function StreamText(fs: seq<Fragment>): string
  {
    if fs == [] then "" else StreamText(fs[..|fs| - 1]) + FragmentText(fs[|fs| - 1])
  }

  /** The deduplicated citations of the fragments, in first-seen order. */
  function StreamSources(fs: seq<Fragment>): seq<GroundingSource>
  {
    if fs == [] then [] else MergeCitations(StreamSources(fs[..|fs| - 1]), GroundingChunksOf(fs[|fs| - 1]))
  }

  lemma {:induction false} StreamTextAppend(a: seq<Fragment>, b: seq<Fragment>)
    ensures StreamText(a + b) == StreamText(a) + StreamText(b)
  {
    if b == [] {
      assert a + b == a;
    } else {
      assert (a + b)[..|a + b| - 1] == a + b[..|b| - 1];
      StreamTextAppend(a, b[..|b| - 1]);
    }
  }

  /** Two fragments "Hel" and "lo" give "Hello": the texts are joined without separators. */
  lemma HelloExample()
    ensures StreamText([Fragment(Some("Hel"), None), Fragment(Some("lo"), None)]) == "Hello"
  {
    var fs := [Fragment(Some("Hel"), None), Fragment(Some("lo"), None)];
    assert fs[..1] == [fs[0]];
    assert [fs[0]][..0] == [];
  }

  lemma FragmentsAppend(a: seq<Delivery>, b: seq<Delivery>)
    ensures Fragments(a + b) == Fragments(a) + Fragments(b)
  {
    MapAppend(a, b, (d: Delivery) => d.fragment);
  }

  /** Without a stop request every fragment is applied. */
  lemma NoStopReceivesAll(ds: seq<Delivery>)
    requires forall i :: 0 <= i < |ds| ==> !ds[i].stopRequested
    ensures Received(ds) == Fragments(ds)
  {
    assert ds[..StopIndex(ds)] == ds;
  }

  /** A delivery taken after a stop request, and everything after it, is ignored. */
  lemma StopIgnoresRest(ds: seq<Delivery>, d: Delivery, rest: seq<Delivery>)
    requires d.stopRequested
    ensures Received(ds + [d] + rest) == Received(ds)
  {
    var p := (x: Delivery) => x.stopRequested;
    FirstIndexAppend(ds + [d], rest, p);
    FirstIndexAppend(ds, [d], p);
    var k := StopIndex(ds);
    assert (ds + [d] + rest)[..k] == ds[..k];
  }

  /** A stopped stream's text is a prefix of the text the whole stream would have produced. */
  lemma StoppedTextIsPrefix(ds: seq<Delivery>)
    ensures var full := StreamText(Fragments(ds)); var got := StreamText(Received(ds));
      |got| <= |full| && full[..|got|] == got
  {
    var k := StopIndex(ds);
    assert ds == ds[..k] + ds[k..];
    FragmentsAppend(ds[..k], ds[k..]);
    StreamTextAppend(Fragments(ds[..k]), Fragments(ds[k..]));
  }

  /** The citations of a stream are those of all its grounding chunks merged in one pass. */
  lemma {:induction false} StreamSourcesFlat(fs: seq<Fragment>)
    ensures StreamSources(fs) == MergeCitations([], AllGroundingChunks(fs))
  {
    if fs != [] {
      var init := fs[..|fs| - 1];
      StreamSourcesFlat(init);
      MergeCitationsAppend([], AllGroundingChunks(init), GroundingChunksOf(fs[|fs| - 1]));
    }
  }

  function AllGroundingChunks(fs: seq<Fragment>): seq<GroundingChunk>
  {
    if fs == [] then [] else AllGroundingChunks(fs[..|fs| - 1]) + GroundingChunksOf(fs[|fs| - 1])
  }

  /** Two citations of one URI with different titles give one source carrying the first title. */
  lemma DuplicateUriExample()
    ensures var f1 := Fragment(None, Some([Candidate(Some(GroundingMetadata(Some([GroundingChunk(Some(WebSource(Some("https://a"), Some("First"))))]))))]));
      var f2 := Fragment(None, Some([Candidate(Some(GroundingMetadata(Some([GroundingChunk(Some(WebSource(Some("https://a"), Some("Second"))))]))))]));
      StreamSources([f1, f2]) == [GroundingSource("First", "https://a")]
  {
    var g1 := GroundingChunk(Some(WebSource(Some("https://a"), Some("First"))));
    var g2 := GroundingChunk(Some(WebSource(Some("https://a"), Some("Second"))));
    var f1 := Fragment(None, Some([Candidate(Some(GroundingMetadata(Some([g1]))))]));
    var f2 := Fragment(None, Some([Candidate(Some(GroundingMetadata(Some([g2]))))]));
    assert [f1, f2][..1] == [f1];
    assert [f1][..0] == [];
    assert [g1][..0] == [];
    assert [g2][..0] == [];
    var s1 := [GroundingSource("First", "https://a")];
    assert GroundingChunksOf(f1) == [g1] && GroundingChunksOf(f2) == [g2];
    assert MergeCitations([], [g1]) == AddCitation([], g1) == s1;
    assert StreamSources([f1]) == MergeCitations(StreamSources([]), [g1]);
    assert StreamSources([f1]) == s1;
    assert s1[0].uri == "https://a";
    assert MergeCitations(s1, [g2]) == AddCitation(s1, g2) == s1;
    assert StreamSources([f1, f2]) == MergeCitations(StreamSources([f1]), [g2]);
  }

  /** Sources deduplicated from scratch have unique URIs and every listed citation URI. */
  lemma StreamSourcesUnique(fs: seq<Fragment>)
    ensures UniqueUris(StreamSources(fs))
    ensures forall g :: g in AllGroundingChunks(fs) && Citation(g).Some? ==> HasUri(StreamSources(fs), Citation(g).value.uri)
  {
    StreamSourcesFlat(fs);
    MergeCitationsSpec([], AllGroundingChunks(fs));
  }

  /** The per-fragment update: the message with id `id` gets the text and sources so far; no other message changes. */
  function WithStreamed(ms: seq<Message>, id: string, content: string, sources: seq<GroundingSource>): (r: seq<Message>)
    ensures |r| == |ms|
    ensures forall i :: 0 <= i < |ms| ==> r[i].id == ms[i].id
    ensures forall i :: 0 <= i < |ms| && ms[i].id != id ==> r[i] == ms[i]
    ensures forall i :: 0 <= i < |ms| && ms[i].id == id ==>
      r[i] == ms[i].(content := content, groundingSources := Some(sources))
  {
    Map(ms, (m: Message) => if m.id == id then m.(content := content, groundingSources := Some(sources)) else m)
  }

  /** Each update replaces the whole text and source list, so only the last one is visible. */
  lemma WithStreamedOverwrites(ms: seq<Message>, id: string, c1: string, s1: seq<GroundingSource>, c2: string, s2: seq<GroundingSource>)
    ensures WithStreamed(WithStreamed(ms, id, c1, s1), id, c2, s2) == WithStreamed(ms, id, c2, s2)
  {
  }

  /** The final update: the message with id `id` stops streaming and records the latency; no other message changes. */
  function WithFinished(ms: seq<Message>, id: string, latency: int): (r: seq<Message>)
    ensures |r| == |ms|
    ensures forall i :: 0 <= i < |ms| ==> r[i].id == ms[i].id
    ensures forall i :: 0 <= i < |ms| && ms[i].id != id ==> r[i] == ms[i]
    ensures forall i :: 0 <= i < |ms| && ms[i].id == id ==>
      r[i] == ms[i].(isStreaming := Some(false), latency := Some(latency))
  {
    Map(ms, (m: Message) => if m.id == id then m.(isStreaming := Some(false), latency := Some(latency)) else m)
  }

  /** The transcript after the fragments before the first stop have been applied to the message `id`. */
  function Streamed(ms: seq<Message>, id: string, ds: seq<Delivery>): seq<Message>
  {
    var fs := Received(ds);
    if fs == [] then ms else WithStreamed(ms, id, StreamText(fs), StreamSources(fs))
  }

  /** The message `m` once the fragments before the first stop have been applied to it. */
  function StreamedMessage(m: Message, ds: seq<Delivery>): Message
  {
    var fs := Received(ds);
    if fs == [] then m else m.(content := StreamText(fs), groundingSources := Some(StreamSources(fs)))
  }

  /** When only the last message carries the id, streaming changes that message alone. */
  lemma StreamedLast(ms: seq<Message>, m: Message, ds: seq<Delivery>)
    requires forall i :: 0 <= i < |ms| ==> ms[i].id != m.id
    ensures Streamed(ms + [m], m.id, ds) == ms + [StreamedMessage(m, ds)]
  {
    var fs := Received(ds);
    if fs != [] {
      var r := WithStreamed(ms + [m], m.id, StreamText(fs), StreamSources(fs));
      assert forall i :: 0 <= i < |ms| ==> r[i] == (ms + [m])[i] == ms[i];
      assert r[|ms|] == StreamedMessage(m, ds);
    }
  }

  /** When only the last message carries the id, the final update changes that message alone. */
  lemma FinishedLast(ms: seq<Message>, m: Message, latency: int)
    requires forall i :: 0 <= i < |ms| ==> ms[i].id != m.id
    ensures WithFinished(ms + [m], m.id, latency) == ms + [m.(isStreaming := Some(false), latency := Some(latency))]
  {
    var r := WithFinished(ms + [m], m.id, latency);
    assert forall i :: 0 <= i < |ms| ==> r[i] == (ms + [m])[i] == ms[i];
  }

  /** One more delivery adds its fragment's text and citations to what came before. */
  lemma ReceiveOneMore(ds: seq<Delivery>, i: nat)
    requires i < |ds|
    ensures StreamText(Fragments(ds[..i + 1])) == StreamText(Fragments(ds[..i])) + FragmentText(ds[i].fragment)
    ensures StreamSources(Fragments(ds[..i + 1])) == MergeCitations(StreamSources(Fragments(ds[..i])), GroundingChunksOf(ds[i].fragment))
  {
    assert ds[..i + 1] == ds[..i] + [ds[i]];
    FragmentsAppend(ds[..i], [ds[i]]);
    assert Fragments(ds[..i + 1])[..i] == Fragments(ds[..i]);
  }

  /** The citation loop of one fragment: each chunk with a URI and a title not yet listed is pushed. */
  method MergeChunkCitations(sources: seq<GroundingSource>, gcs: seq<GroundingChunk>) returns (merged: seq<GroundingSource>)
    ensures merged == MergeCitations(sources, gcs)
  {
    merged := sources;
    var j := 0;
    while j < |gcs|
      invariant 0 <= j <= |gcs|
      invariant merged == MergeCitations(sources, gcs[..j])
    {
      var c := Citation(gcs[j]);
      if c.Some? && !HasUri(merged, c.value.uri) {
        merged := merged + [c.value];
      }
      assert gcs[..j + 1][..j] == gcs[..j];
      j := j + 1;
    }
    assert gcs[..j] == gcs;
  }

  /** One pass of the stream loop: the fragment's text is appended and its citations merged. */
  method TakeFragment(ds: seq<Delivery>, i: nat, fullContent: string, sources: seq<GroundingSource>)
    returns (fullContent': string, sources': seq<GroundingSource>)
    requires i < |ds|
    requires fullContent == StreamText(Fragments(ds[..i]))
    requires sources == StreamSources(Fragments(ds[..i]))
    ensures fullContent' == StreamText(Fragments(ds[..i + 1]))
    ensures sources' == StreamSources(Fragments(ds[..i + 1]))
  {
    var chunk := ds[i].fragment;
    ReceiveOneMore(ds, i);
    fullContent' := fullContent;
    if chunk.text.Some? && chunk.text.value != "" {
      fullContent' := fullContent + chunk.text.value;
    }
    sources' := MergeChunkCitations(sources, GroundingChunksOf(chunk));
  }

  /**
   * The stream loop: takes the deliveries in order, stops at the first one taken after a stop
   * request, appends each fragment's text, merges its citations, and after each fragment writes the
   * text and sources so far into the message `responseId`.
   */
  method StreamIntoTranscript(transcript: seq<Message>, responseId: string, ds: seq<Delivery>)
    returns (messages: seq<Message>, fullContent: string, sources: seq<GroundingSource>)
    ensures fullContent == StreamText(Received(ds))
    ensures sources == StreamSources(Received(ds))
    ensures messages == Streamed(transcript, responseId, ds)
  {
    messages := transcript;
    fullContent := "";
    sources := [];
    var i := 0;
    while i < |ds|
      invariant 0 <= i <= StopIndex(ds)
      invariant fullContent == StreamText(Fragments(ds[..i]))
      invariant sources == StreamSources(Fragments(ds[..i]))
      invariant messages == if i == 0 then transcript else WithStreamed(transcript, responseId, fullContent, sources)
    {
      if ds[i].stopRequested {
        break;
      }
      var text, merged := TakeFragment(ds, i, fullContent, sources);
      WithStreamedOverwrites(transcript, responseId, fullContent, sources, text, merged);
      fullContent, sources := text, merged;
      messages := WithStreamed(messages, responseId, fullContent, sources);
      i := i + 1;
    }
    assert ds[..StopIndex(ds)] == ds[..i];
  }
}
