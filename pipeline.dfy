/** The three request flows of the sticker service over one flat output
    directory. The diffusion pipeline, Whisper, the image decoder and the
    resampling filter are parameters: the flows only fix what is passed to
    them, in which order, and what is written afterwards. */
module Pipeline {
  import opened Raster
  import opened Transparency
  import opened Naming
  import opened Prompts

  /** The fast deployment profile: 384 x 384 pixels, 12 denoising steps. */
  const Size: nat := 384
  const Steps: nat := 12
  const OutputDir := "generated_stickers"
  const MediaType := "image/png"

  /** `pipe(prompt, height=.., width=.., num_inference_steps=..)`, first image or the exception. */
  type Generator = (string, nat, nat, nat) -> Result<Raster>
  /** `speech2text(buffer)["text"]` on a BytesIO over the audio bytes, or the exception. */
  type Transcriber = seq<Byte> -> Result<string>
  /** `Image.open` on the uploaded bytes. */
  type Decoder = seq<Byte> -> Result<Raster>
  /** The resampling filter: output pixel (i, j) of a picture resized to Size x Size. */
  type Resampler = (Raster, nat, nat) -> Pixel
  /** Whether `save` can write an RGBA picture under this file name. PIL picks
      the format from the name's extension: ".png" can hold RGBA, ".jpg" cannot,
      and a name without a known extension is refused outright. */
  type Encoder = string -> bool

  /** `resize((384, 384))`: a Size x Size picture of the same mode. */
  function Resize(p: Raster, resample: Resampler): (q: Raster)
    ensures q.mode == p.mode && q.height == Size && q.width == Size
  {
    Picture(p.mode, Size, Size, seq(Size, (i: nat) => seq(Size, (j: nat) => resample(p, i, j))))
  }

  /** The path a FileResponse carries for a file of the output directory. */
  function PathOf(name: string): (path: string)
    ensures |path| == |OutputDir| + 1 + |name|
    ensures path[..|OutputDir| + 1] == OutputDir + "/" && path[|OutputDir| + 1..] == name
  {
    OutputDir + "/" + name
  }

  /** Calls to the two models and writes to the directory, in the order made. */
  datatype Call =
    | Transcribe(audio: seq<Byte>)
    | Synthesize(prompt: string, height: nat, width: nat, steps: nat)
    | Save(name: string)

  datatype Response = File(path: string, mediaType: string) | Failure(error: Error)

  class StickerService {
    /** The output directory: file name to the picture saved under it. */
    var files: map<string, Raster>
    /** Every model call and every write, oldest first. */
    var calls: seq<Call>

    /** The service at start-up, over whatever the directory already holds. */
    constructor (existing: map<string, Raster>)
      ensures files == existing && calls == []
    {
      files := existing;
      calls := [];
    }

    /** The tail shared by the two generating flows, once the model has
        returned `image`: keyed on white and saved under the category's next
        counted name, or, when numpy rejects the mask, nothing written. */
    ghost predicate StoredGenerated(before: map<string, Raster>, trace: seq<Call>, image: Raster,
                                    prefix: string, response: Response)
      reads this
    {
      var keyed := Transparent(image, White);
      if keyed.Err? then
        response == Failure(keyed.error) && files == before && calls == trace
      else
        var name := GeneratedName(before.Keys, prefix);
        response == File(PathOf(name), MediaType) &&
        files == before[name := keyed.value] && calls == trace + [Save(name)]
    }

    method StoreGenerated(image: Raster, prefix: string) returns (response: Response)
      modifies this
      ensures old(files).Keys <= files.Keys
      ensures StoredGenerated(old(files), old(calls), image, prefix, response)
    {
      var keyed := MakeTransparent(image, White);
      if keyed.Err? {
        return Failure(keyed.error);
      }
      var name := GeneratedName(files.Keys, prefix);
      files := files[name := keyed.value];
      calls := calls + [Save(name)];
      response := File(PathOf(name), MediaType);
    }

    /** POST /generate_sticker: styled prompt, one model call, then at most one
        write, and only when the model returned. */
    method GenerateSticker(text: string, pipe: Generator) returns (response: Response)
      modifies this
      ensures old(files).Keys <= files.Keys
      ensures var prompt := TextPrompt(text);
              var generated := pipe(prompt, Size, Size, Steps);
              var trace := old(calls) + [Synthesize(prompt, Size, Size, Steps)];
              if generated.Err? then
                response == Failure(generated.error) && files == old(files) && calls == trace
              else
                StoredGenerated(old(files), trace, generated.value, TextPrefix, response)
    {
      var prompt := TextPrompt(text);
      calls := calls + [Synthesize(prompt, Size, Size, Steps)];
      var generated := pipe(prompt, Size, Size, Steps);
      if generated.Err? {
        return Failure(generated.error);
      }
      response := StoreGenerated(generated.value, TextPrefix);
    }

    /** POST /upload_image: decode, force RGBA, key on white, then resize to
        Size x Size and save as "uploaded_" + the client's file name, when the
        format that name selects can hold RGBA. The models are never called. */
    method UploadImage(content: seq<Byte>, filename: string, decode: Decoder, resample: Resampler,
                       canSave: Encoder)
      returns (response: Response)
      modifies this
      ensures old(files).Keys <= files.Keys
      ensures var decoded := decode(content);
              if decoded.Err? then
                response == Failure(decoded.error) && files == old(files) && calls == old(calls)
              else
                var keyed := Transparent(ToRgba(decoded.value), White);
                if keyed.Err? then
                  response == Failure(keyed.error) && files == old(files) && calls == old(calls)
                else
                  var name := UploadName(filename);
                  if !canSave(name) then
                    response == Failure(EncodeError) && files == old(files) && calls == old(calls)
                  else
                    response == File(PathOf(name), MediaType) &&
                    files == old(files)[name := Resize(keyed.value, resample)] &&
                    calls == old(calls) + [Save(name)]
    {
      var decoded := decode(content);
      if decoded.Err? {
        return Failure(decoded.error);
      }
      var keyed := MakeTransparent(ToRgba(decoded.value), White);
      if keyed.Err? {
        return Failure(keyed.error);
      }
      var resized := Resize(keyed.value, resample);
      var name := UploadName(filename);
      if !canSave(name) {
        return Failure(EncodeError);
      }
      files := files[name := resized];
      calls := calls + [Save(name)];
      response := File(PathOf(name), MediaType);
    }

    /** POST /generate_sticker_from_voice: transcribe, style the transcription,
        one model call, then at most one write. */
    method GenerateStickerFromVoice(audio: seq<Byte>, speech2text: Transcriber, pipe: Generator)
      returns (response: Response)
      modifies this
      ensures old(files).Keys <= files.Keys
      ensures var heard := speech2text(audio);
              if heard.Err? then
                response == Failure(heard.error) && files == old(files) &&
                calls == old(calls) + [Transcribe(audio)]
              else
                var prompt := VoicePrompt(heard.value);
                var generated := pipe(prompt, Size, Size, Steps);
                var trace := old(calls) + [Transcribe(audio), Synthesize(prompt, Size, Size, Steps)];
                if generated.Err? then
                  response == Failure(generated.error) && files == old(files) && calls == trace
                else
                  StoredGenerated(old(files), trace, generated.value, VoicePrefix, response)
    {
      calls := calls + [Transcribe(audio)];
      var heard := speech2text(audio);
      if heard.Err? {
        return Failure(heard.error);
      }
      var prompt := VoicePrompt(heard.value);
      calls := calls + [Synthesize(prompt, Size, Size, Steps)];
      var generated := pipe(prompt, Size, Size, Steps);
      if generated.Err? {
        return Failure(generated.error);
      }
      response := StoreGenerated(generated.value, VoicePrefix);
    }
  }

  /** Uploading the same file name twice writes one path both times, and the
      second picture replaces the first. */
  method RepeatedUpload(service: StickerService, first: seq<Byte>, second: seq<Byte>, filename: string,
                        decode: Decoder, resample: Resampler, canSave: Encoder)
    returns (r1: Response, r2: Response)
    requires canSave("uploaded_" + filename)
    requires decode(first).Ok? && decode(first).value.height == decode(first).value.width
    requires decode(second).Ok? && decode(second).value.height == decode(second).value.width
    modifies service
    ensures r1 == r2 == File(PathOf("uploaded_" + filename), MediaType)
    ensures service.files == old(service.files)["uploaded_" + filename :=
              Resize(Transparent(ToRgba(decode(second).value), White).value, resample)]
  {
    r1 := service.UploadImage(first, filename, decode, resample, canSave);
    r2 := service.UploadImage(second, filename, decode, resample, canSave);
  }

  /** With a transcriber that hears "hello", the model is asked for "hello"
      followed by the voice style, at 384 x 384 with 12 steps. */
  method HelloVoice(service: StickerService, audio: seq<Byte>, pipe: Generator) returns (response: Response)
    modifies service
    ensures |service.calls| >= |old(service.calls)| + 2
    ensures service.calls[|old(service.calls)|] == Transcribe(audio)
    ensures service.calls[|old(service.calls)| + 1] ==
              Synthesize("hello" + VoiceStyle, 384, 384, 12)
  {
    response := service.GenerateStickerFromVoice(audio, a => Ok("hello"), pipe);
  }

  /** Sequential text requests number their stickers 1, 2, 3, ...: when the text
      glob finds exactly the first n names and the model returns a square
      picture, the response is the (n+1)-th name, which did not exist before,
      and the glob then finds the first n+1 names. */
  method NextTextSticker(service: StickerService, text: string, pipe: Generator, n: nat)
    returns (response: Response)
    requires Matching(service.files.Keys, TextPrefix) == NumberedNames(TextPrefix, n)
    requires pipe(TextPrompt(text), Size, Size, Steps).Ok?
    requires pipe(TextPrompt(text), Size, Size, Steps).value.height ==
             pipe(TextPrompt(text), Size, Size, Steps).value.width
    modifies service
    ensures response == File(PathOf(NumberedName(TextPrefix, n + 1)), MediaType)
    ensures NumberedName(TextPrefix, n + 1) !in old(service.files)
    ensures Matching(service.files.Keys, TextPrefix) == NumberedNames(TextPrefix, n + 1)
  {
    SequentialNaming(service.files.Keys, TextPrefix, n);
    response := service.GenerateSticker(text, pipe);
  }

  /** An upload whose name selects a format that cannot hold RGBA, such as
      "cat.jpg", fails after the key step and leaves the directory as it was. */
  method UnsavableUpload(service: StickerService, content: seq<Byte>, decode: Decoder,
                         resample: Resampler, canSave: Encoder)
    returns (response: Response)
    requires !canSave("uploaded_cat.jpg")
    requires decode(content).Ok? && decode(content).value.height == decode(content).value.width
    modifies service
    ensures response == Failure(EncodeError)
    ensures service.files == old(service.files) && service.calls == old(service.calls)
  {
    assert UploadName("cat.jpg") == "uploaded_cat.jpg";
    response := service.UploadImage(content, "cat.jpg", decode, resample, canSave);
  }
}
