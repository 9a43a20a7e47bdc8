/** The client of the hosted generative-AI provider: key gating, the lazily
    created chat handle, and the shaping of provider replies into plain
    results or the client's own fixed errors. Every provider call is an
    input: the `Reply` it settled with. */
module Gemini {
  import opened Outcomes
  import opened Validation

  /** The placeholder a deployment leaves in place of a real key. */
  const PlaceholderKey := "YOUR_API_KEY"

  /** The configuration error, character for character as
      `gemini.service.ts` holds it (its Croatian letters are stored
      mis-encoded there). */
  const ConfigError := "Gemini API klju\U{00C4} nije konfiguriran. Molimo kontaktirajte podr\U{00C5}\U{00A1}ku."
  const AnalysisFailed := "Failed to generate synastry analysis. Please try again."
  const ImageFailed := "Failed to generate image. Please try again."
  const ChatFailed := "Failed to get chat response. Please try again."
  const LowLatencyFailed := "Failed to get low-latency response."
  const SearchFailed := "Failed to perform search grounding. Please try again."
  /** The canned maps reply, stored mis-encoded in `gemini.service.ts`
      like ConfigError. */
  const MapsUnsupported := "Na\U{00C5}\U{00BE}alost, direktna integracija Google Maps alata putem Gemini API-ja nije podr\U{00C5}\U{00BE}ana u ovoj konfiguraciji. Mo\U{00C5}\U{00BE}ete poku\U{00C5}\U{00A1}ati postaviti op\U{00C4}\U{2021}enito pitanje o lokacijama u chatu."
  const DataUriPrefix := "data:image/jpeg;base64,"

  /** A key that cannot be used: absent, empty, or the placeholder. */
  predicate KeyUnusable(apiKey: Option<string>) {
    apiKey.None? || apiKey.value == "" || apiKey.value == PlaceholderKey
  }

  /** The provider's client object. */
  class GenAiClient {}

  /** A provider-side conversation. */
  class ChatSession {}

  // ---------------------------------------------------------------------
  // Streamed chat replies

  /** The text of a streamed reply: its chunks joined in arrival order. */
  function Concat(chunks: seq<string>): string {
    if chunks == [] then "" else Concat(chunks[..|chunks| - 1]) + chunks[|chunks| - 1]
  }

  /** Joining splits over any cut of the stream. */
  lemma {:induction false} ConcatAppend(xs: seq<string>, ys: seq<string>)
    ensures Concat(xs + ys) == Concat(xs) + Concat(ys)
    decreases |ys|
  {
    if ys == [] {
      assert xs + ys == xs;
    } else {
      var init := ys[..|ys| - 1];
      assert (xs + ys)[..|xs + ys| - 1] == xs + init;
      assert (xs + ys)[|xs + ys| - 1] == ys[|ys| - 1];
      calc {
        Concat(xs + ys);
        Concat(xs + init) + ys[|ys| - 1];
        { ConcatAppend(xs, init); }
        Concat(xs) + Concat(init) + ys[|ys| - 1];
        Concat(xs) + Concat(ys);
      }
    }
  }

  /** Chunk `k` sits in the joined text right after the chunks before it. */
  lemma ConcatPlacesChunk(chunks: seq<string>, k: nat)
    requires k < |chunks|
    ensures var before := |Concat(chunks[..k])|;
      before + |chunks[k]| <= |Concat(chunks)| && Concat(chunks)[before..before + |chunks[k]|] == chunks[k]
  {
    assert chunks == chunks[..k] + [chunks[k]] + chunks[k + 1..];
    ConcatAppend(chunks[..k] + [chunks[k]], chunks[k + 1..]);
    ConcatAppend(chunks[..k], [chunks[k]]);
    assert Concat([chunks[k]]) == Concat([]) + chunks[k];
  }

  /** The reading loop: starting from "", append every chunk's text. */
  method AccumulateChunks(chunks: seq<string>) returns (full: string)
    ensures full == Concat(chunks)
  {
    full := "";
    for i := 0 to |chunks|
      invariant full == Concat(chunks[..i])
    {
      assert chunks[..i + 1][..i] == chunks[..i];
      full := full + chunks[i];
    }
    assert chunks[..|chunks|] == chunks;
  }

  // ---------------------------------------------------------------------
  // Search grounding metadata

  datatype WebSource = WebSource(uri: Option<string>)
  datatype GroundingChunk = GroundingChunk(web: Option<WebSource>)
  datatype GroundingMetadata = GroundingMetadata(groundingChunks: Option<seq<GroundingChunk>>)
  datatype Candidate = Candidate(groundingMetadata: Option<GroundingMetadata>)
  datatype SearchResponse = SearchResponse(text: string, candidates: Option<seq<Candidate>>)

  /** The chunk's `web.uri` when present and non-empty. */
  function ChunkUri(c: GroundingChunk): Option<string> {
    if c.web.Some? && c.web.value.uri.Some? && c.web.value.uri.value != "" then c.web.value.uri else None
  }

  /** The grounding chunks of the first candidate; none when any link of
      that path is absent. */
  function GroundingChunksOf(r: SearchResponse): seq<GroundingChunk> {
    if r.candidates.Some? && |r.candidates.value| > 0
       && r.candidates.value[0].groundingMetadata.Some?
       && r.candidates.value[0].groundingMetadata.value.groundingChunks.Some?
    then r.candidates.value[0].groundingMetadata.value.groundingChunks.value
    else []
  }

  /** The URLs of the chunks that carry one, in chunk order. */
  function WebUris(chunks: seq<GroundingChunk>): seq<string> {
    if chunks == [] then []
    else
      var init := WebUris(chunks[..|chunks| - 1]);
      match ChunkUri(chunks[|chunks| - 1])
      case Some(u) => init + [u]
      case None => init
  }

  lemma {:induction false} WebUrisAppend(xs: seq<GroundingChunk>, ys: seq<GroundingChunk>)
    ensures WebUris(xs + ys) == WebUris(xs) + WebUris(ys)
    decreases |ys|
  {
    if ys == [] {
      assert xs + ys == xs;
    } else {
      assert (xs + ys)[..|xs + ys| - 1] == xs + ys[..|ys| - 1];
      WebUrisAppend(xs, ys[..|ys| - 1]);
    }
  }

  /** A URL is collected exactly when some chunk carries it, and no chunk
      yields more than one URL. */
  lemma {:induction false} WebUrisExact(chunks: seq<GroundingChunk>)
    ensures |WebUris(chunks)| <= |chunks|
    ensures forall u :: u in WebUris(chunks) <==> exists j :: 0 <= j < |chunks| && ChunkUri(chunks[j]) == Some(u)
  {
    if chunks != [] {
      var init := chunks[..|chunks| - 1];
      WebUrisExact(init);
      forall u ensures u in WebUris(chunks) <==> exists j :: 0 <= j < |chunks| && ChunkUri(chunks[j]) == Some(u) {
        if u in WebUris(chunks) && u !in WebUris(init) {
          assert ChunkUri(chunks[|chunks| - 1]) == Some(u);
        }
        if j :| 0 <= j < |chunks| && ChunkUri(chunks[j]) == Some(u) {
          if j < |chunks| - 1 {
            assert ChunkUri(init[j]) == Some(u);
          }
        }
      }
    }
  }

  /** Three chunks of which the first and last carry a URL give those two
      URLs in order. */
  lemma WebUrisSkipsChunkWithoutUrl(u1: string, u2: string)
    requires u1 != "" && u2 != ""
    ensures WebUris([GroundingChunk(Some(WebSource(Some(u1)))), GroundingChunk(None), GroundingChunk(Some(WebSource(Some(u2))))]) == [u1, u2]
  {
    var c1, c2, c3 := GroundingChunk(Some(WebSource(Some(u1)))), GroundingChunk(None), GroundingChunk(Some(WebSource(Some(u2))));
    assert [c1][..0] == [];
    assert WebUris([c1]) == [u1];
    assert [c1, c2][..1] == [c1];
    assert WebUris([c1, c2]) == [u1];
    assert [c1, c2, c3][..2] == [c1, c2];
  }

  /** The metadata walk: push every chunk's URL, skipping chunks without. */
  method CollectWebUris(chunks: seq<GroundingChunk>) returns (urls: seq<string>)
    ensures urls == WebUris(chunks)
  {
    urls := [];
    for i := 0 to |chunks|
      invariant urls == WebUris(chunks[..i])
    {
      assert chunks[..i + 1][..i] == chunks[..i];
      var c := chunks[i];
      if c.web.Some? && c.web.value.uri.Some? && c.web.value.uri.value != "" {
        urls := urls + [c.web.value.uri.value];
      }
    }
    assert chunks[..|chunks|] == chunks;
  }

  // ---------------------------------------------------------------------
  // Images

  /** The data URI of a JPEG whose base64 text is `imageBytes`. */
  function DataUri(imageBytes: string): (uri: string)
    ensures StripDataUriPrefix(uri) == Some(imageBytes)
  {
    var uri := DataUriPrefix + imageBytes;
    assert uri[..|DataUriPrefix|] == DataUriPrefix;
    uri
  }

  /** The payload of a JPEG data URI. */
  function StripDataUriPrefix(uri: string): Option<string> {
    if |uri| >= |DataUriPrefix| && uri[..|DataUriPrefix|] == DataUriPrefix then Some(uri[|DataUriPrefix|..]) else None
  }

  /** Distinct payloads give distinct URIs. */
  lemma DataUriInjective(x: string, y: string)
    requires DataUri(x) == DataUri(y)
    ensures x == y
  {
    assert StripDataUriPrefix(DataUri(x)) == Some(x);
  }

  // ---------------------------------------------------------------------
  // The client

  class GeminiService {
    var ai: GenAiClient?
    var chatInstance: ChatSession?
    var apiKeyMissing: bool

    /** The client is present exactly when the key was accepted, and a chat
        exists only with a client. */
    ghost predicate Valid()
      reads this
    {
      (apiKeyMissing <==> ai == null) && (chatInstance != null ==> ai != null)
    }

    predicate Configured()
      reads this
    {
      !apiKeyMissing && ai != null
    }

    /** `apiKey` is the configured key (None when unset); `clientThrows`
        says whether constructing the provider client raised. */
    constructor (apiKey: Option<string>, clientThrows: bool)
      ensures Valid()
      ensures apiKeyMissing <==> KeyUnusable(apiKey) || clientThrows
      ensures !apiKeyMissing ==> ai != null && fresh(ai)
      ensures chatInstance == null
    {
      chatInstance := null;
      if KeyUnusable(apiKey) {
        ai := null;
        apiKeyMissing := true;
      } else if clientThrows {
        ai := null;
        apiKeyMissing := true;
      } else {
        ai := new GenAiClient;
        apiKeyMissing := false;
      }
    }

    /** Fails with the configuration error unless a client is configured. */
    method CheckApiKey() returns (failure: Option<string>)
      ensures failure.Some? <==> apiKeyMissing || ai == null
      ensures failure.Some? ==> failure.value == ConfigError
    {
      if apiKeyMissing || ai == null {
        return Some(ConfigError);
      }
      return None;
    }

    /** Long-form analysis of two birth records; the prompt text is not
        modelled, `provider` is what the text-generation call settled with. */
    method GenerateSynastryAnalysis(a: BirthRecord, b: BirthRecord, provider: Reply<string>) returns (r: Reply<string>)
      ensures !Configured() ==> r == Failed(Some(ConfigError))
      ensures Configured() && provider.Done? ==> r == provider
      ensures Configured() && provider.Failed? ==> r == Failed(Some(AnalysisFailed))
    {
      var failure := CheckApiKey();
      if failure.Some? {
        return Failed(failure);
      }
      match provider
      case Done(text) => r := Done(text);
      case Failed(_) => r := Failed(Some(AnalysisFailed));
    }

    /** Image generation; `provider` carries the base64 text of each image
        generated. A reply without images fails like a provider error. */
    method GenerateImage(prompt: string, provider: Reply<seq<string>>) returns (r: Reply<string>)
      ensures !Configured() ==> r == Failed(Some(ConfigError))
      ensures Configured() && provider.Done? && |provider.value| > 0 ==> r.Done? && StripDataUriPrefix(r.value) == Some(provider.value[0])
      ensures Configured() && !(provider.Done? && |provider.value| > 0) ==> r == Failed(Some(ImageFailed))
    {
      var failure := CheckApiKey();
      if failure.Some? {
        return Failed(failure);
      }
      if provider.Failed? || |provider.value| == 0 {
        return Failed(Some(ImageFailed));
      }
      r := Done(DataUri(provider.value[0]));
    }

    /** Creates the chat handle when there is none; otherwise keeps it. */
    method StartChat() returns (failure: Option<string>)
      requires Valid()
      modifies this`chatInstance
      ensures Valid()
      ensures failure == if Configured() then None else Some(ConfigError)
      ensures old(chatInstance) != null ==> chatInstance == old(chatInstance)
      ensures old(chatInstance) == null && Configured() ==> chatInstance != null && fresh(chatInstance)
      ensures !Configured() ==> chatInstance == old(chatInstance)
    {
      failure := CheckApiKey();
      if failure.Some? {
        return;
      }
      if chatInstance == null {
        chatInstance := new ChatSession;
      }
    }

    /** Sends one chat message; `stream` is the streamed reply's chunk texts
        or the failure that interrupted it. */
    method SendMessageToChat(message: string, stream: Reply<seq<string>>) returns (r: Reply<string>)
      requires Valid()
      modifies this`chatInstance
      ensures Valid()
      ensures !Configured() ==> r == Failed(Some(ConfigError)) && chatInstance == old(chatInstance)
      ensures Configured() ==> chatInstance != null && (old(chatInstance) != null ==> chatInstance == old(chatInstance))
      ensures Configured() && stream.Done? ==> r == Done(Concat(stream.value))
      ensures Configured() && stream.Failed? ==> r == Failed(Some(ChatFailed))
    {
      var failure := CheckApiKey();
      if failure.Some? {
        return Failed(failure);
      }
      if chatInstance == null {
        failure := StartChat();
      }
      match stream
      case Failed(_) => r := Failed(Some(ChatFailed));
      case Done(chunks) =>
        var full := AccumulateChunks(chunks);
        r := Done(full);
    }

    /** A single fast query; `provider` is what the call settled with. */
    method GetLowLatencyResponse(query: string, provider: Reply<string>) returns (r: Reply<string>)
      ensures !Configured() ==> r == Failed(Some(ConfigError))
      ensures Configured() && provider.Done? ==> r == provider
      ensures Configured() && provider.Failed? ==> r == Failed(Some(LowLatencyFailed))
    {
      var failure := CheckApiKey();
      if failure.Some? {
        return Failed(failure);
      }
      match provider
      case Done(text) => r := Done(text);
      case Failed(_) => r := Failed(Some(LowLatencyFailed));
    }

    /** A web-search-grounded query: the reply text with the URLs of the
        first candidate's grounding chunks. */
    method SearchGrounding(query: string, provider: Reply<SearchResponse>) returns (r: Reply<GroundedAnswer>)
      ensures !Configured() ==> r == Failed(Some(ConfigError))
      ensures Configured() && provider.Done? ==> r == Done(GroundedAnswer(provider.value.text, WebUris(GroundingChunksOf(provider.value))))
      ensures Configured() && provider.Failed? ==> r == Failed(Some(SearchFailed))
    {
      var failure := CheckApiKey();
      if failure.Some? {
        return Failed(failure);
      }
      match provider
      case Failed(_) => r := Failed(Some(SearchFailed));
      case Done(response) =>
        var urls: seq<string> := [];
        var cs := response.candidates;
        if cs.Some? && |cs.value| > 0 && cs.value[0].groundingMetadata.Some? && cs.value[0].groundingMetadata.value.groundingChunks.Some? {
          urls := CollectWebUris(cs.value[0].groundingMetadata.value.groundingChunks.value);
        }
        r := Done(GroundedAnswer(response.text, urls));
    }

    /** Maps grounding is not offered: no provider call, a fixed reply. */
    method MapsGrounding(query: string) returns (r: Reply<GroundedAnswer>)
      ensures !Configured() ==> r == Failed(Some(ConfigError))
      ensures Configured() ==> r == Done(GroundedAnswer(MapsUnsupported, []))
    {
      var failure := CheckApiKey();
      if failure.Some? {
        return Failed(failure);
      }
      r := Done(GroundedAnswer(MapsUnsupported, []));
    }
  }
}
