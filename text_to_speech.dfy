/**
 * The speech-synthesis flow: the audio payload is taken out of the media URL
 * the model returns, wrapped in a WAV container by the `wav` writer, and
 * handed back as a `data:audio/wav;base64,` URI. Base64 and the WAV writer are
 * foreign code and enter as function parameters.
 */
module TextToSpeech {
  import opened Outcomes
  import JsString

  type Byte = bv8

  /** The part of the model's answer the flow reads: its media URL. */
  datatype Media = Media(url: string)

  /** The options the flow gives the WAV writer. */
  datatype WavFormat = WavFormat(channels: nat, sampleRate: nat, bitDepth: nat)

  datatype TtsOutput = TtsOutput(audioDataUri: string)

  const DataUriPrefix: string := "data:audio/wav;base64,"
  const NoMediaReason: string := "no media returned from TTS model"

  /**
   * `url.substring(url.indexOf(',') + 1)`: what follows the first comma, or
   * the whole URL when it has none (`indexOf` gives -1).
   */
  function Payload(url: string): (payload: string)
    ensures ',' !in url ==> payload == url
    ensures ',' in url ==>
      && |payload| < |url|
      && url[|url| - |payload| - 1] == ','
      && url[|url| - |payload|..] == payload
      && ',' !in url[..|url| - |payload| - 1]
  {
    var i := JsString.IndexOf(url, ',');
    assert i >= 0 ==> url[..i] == url[..|url| - |url[i + 1..]| - 1];
    url[i + 1..]
  }

  /** The flow's result: the encoded WAV after the fixed prefix. */
  function DataUri(encoded: string): string
  {
    DataUriPrefix + encoded
  }

  /** The prefix's only comma is its last character. */
  lemma PrefixComma()
    ensures ',' in DataUriPrefix
    ensures JsString.IndexOf(DataUriPrefix, ',') == |DataUriPrefix| - 1
  {
    assert DataUriPrefix[21] == ',';
    assert forall j :: 0 <= j < 21 ==> DataUriPrefix[j] != ',';
    JsString.IndexOfFirst(DataUriPrefix, ',', 21);
  }

  /**
   * Extraction undoes construction, whatever the encoded text holds (commas
   * included): the first comma of a built URI is the prefix's own.
   */
  lemma PayloadOfDataUri(encoded: string)
    ensures Payload(DataUri(encoded)) == encoded
  {
    var uri := DataUri(encoded);
    PrefixComma();
    JsString.IndexOfAppend(DataUriPrefix, encoded, ',');
    assert uri[|DataUriPrefix|..] == encoded;
    PayloadAt(uri, |DataUriPrefix| - 1);
  }

  /** The payload starts right after the first comma. */
  lemma PayloadAt(url: string, i: int)
    requires JsString.IndexOf(url, ',') == i
    ensures Payload(url) == url[i + 1..]
  {
  }

  /** Construction undoes extraction on a URI that starts with the prefix. */
  lemma DataUriOfPayload(url: string)
    requires |url| >= |DataUriPrefix| && url[..|DataUriPrefix|] == DataUriPrefix
    ensures DataUri(Payload(url)) == url
  {
    var encoded := url[|DataUriPrefix|..];
    assert url == DataUriPrefix + encoded;
    PayloadOfDataUri(encoded);
  }

  /** `Buffer.concat`: the chunks' bytes one after the other. */
  function Concat(chunks: seq<seq<Byte>>): seq<Byte>
  {
    if |chunks| == 0 then [] else Concat(chunks[..|chunks| - 1]) + chunks[|chunks| - 1]
  }

  /** Concatenation keeps the order in which chunks were emitted. */
  lemma {:induction false} ConcatAppend(a: seq<seq<Byte>>, b: seq<seq<Byte>>)
    ensures Concat(a + b) == Concat(a) + Concat(b)
    decreases |b|
  {
    if |b| > 0 {
      assert (a + b)[..|a + b| - 1] == a + b[..|b| - 1];
      ConcatAppend(a, b[..|b| - 1]);
    } else {
      assert a + b == a;
    }
  }

  /** The writer options `toWav` passes by default: mono, 24 kHz, 16 bits. */
  function WriterFormat(channels: nat, rate: nat, sampleWidth: nat): (format: WavFormat)
    ensures format.channels == channels && format.sampleRate == rate
    ensures format.bitDepth == 8 * sampleWidth
  {
    WavFormat(channels, rate, sampleWidth * 8)
  }

  /**
   * `toWav`. `writer(format, pcm)` is what the `wav` writer emits for these
   * samples: its `data` chunks in order, or the error its `error` event
   * carries. Every `data` chunk is pushed onto `bufs`; at `end` the chunks
   * are concatenated and base64-encoded with `encode`.
   */
  method ToWav(
    pcm: seq<Byte>,
    writer: (WavFormat, seq<Byte>) -> Call<seq<seq<Byte>>>,
    encode: seq<Byte> -> string,
    channels: nat := 1, rate: nat := 24000, sampleWidth: nat := 2)
    returns (r: Call<string>)
    ensures var emitted := writer(WriterFormat(channels, rate, sampleWidth), pcm);
      r == if emitted.Success? then Success(encode(Concat(emitted.value))) else Failure(emitted.reason)
  {
    var emitted := writer(WriterFormat(channels, rate, sampleWidth), pcm);
    if emitted.Failure? {
      return Failure(emitted.reason);
    }
    var chunks := emitted.value;
    var bufs: seq<seq<Byte>> := [];
    var i := 0;
    while i < |chunks|
      invariant 0 <= i <= |chunks|
      invariant bufs == chunks[..i]
    {
      bufs := bufs + [chunks[i]];
      i := i + 1;
    }
    assert bufs == chunks;
    r := Success(encode(Concat(bufs)));
  }

  /**
   * `textToSpeechFlow`. `generated` is what the speech model call settled to,
   * with `None` when it returned no media; `decode` is base64 decoding.
   */
  method TextToSpeechFlow(
    generated: Call<Option<Media>>,
    decode: string -> seq<Byte>,
    writer: (WavFormat, seq<Byte>) -> Call<seq<seq<Byte>>>,
    encode: seq<Byte> -> string)
    returns (r: Call<TtsOutput>)
    ensures generated.Failure? ==> r == Failure(generated.reason)
    ensures generated == Success(None) ==> r == Failure(NoMediaReason)
    ensures generated.Success? && generated.value.Some? ==>
      var emitted := writer(WavFormat(1, 24000, 16), decode(Payload(generated.value.value.url)));
      r == if emitted.Success? then Success(TtsOutput(DataUri(encode(Concat(emitted.value)))))
           else Failure(emitted.reason)
    ensures r.Success? ==>
      |r.value.audioDataUri| >= |DataUriPrefix| && r.value.audioDataUri[..|DataUriPrefix|] == DataUriPrefix
  {
    if generated.Failure? {
      return Failure(generated.reason);
    }
    if generated.value.None? {
      return Failure(NoMediaReason);
    }
    var audioBuffer := decode(Payload(generated.value.value.url));
    var wavData := ToWav(audioBuffer, writer, encode);
    if wavData.Failure? {
      return Failure(wavData.reason);
    }
    r := Success(TtsOutput(DataUri(wavData.value)));
  }
}
