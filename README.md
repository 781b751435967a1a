# AI sticker maker: model of the request pipeline

This project models the request-to-artifact core of a small sticker service
(`ai_sticker_backend/main.py`). The service has three entry points:

- `POST /generate_sticker` takes a text.
- `POST /upload_image` takes an image file.
- `POST /generate_sticker_from_voice` takes a voice recording.

Each successful request writes one file in the flat directory
`generated_stickers/`: a PNG for the two generating flows, and for an upload
the format its file name's extension selects, still served as `image/png`.
The model covers four things:

- **Chroma-key transparency (`make_transparent`).** `raster.dfy` and
  `transparency.dfy` model it as a method that builds a mask and clears alpha
  cells in place in an `array2`. The method is proved equal to a specification
  function, `Transparent`, and the lemmas are stated about that function. The
  code builds the mask from `data.T` and applies it to the untransposed alpha
  plane, so the model does the same:
  - For a square picture, alpha at row i, column j is cleared when the pixel
    at row j, column i has the key colour.
  - A picture that is not square ends in `ShapeMismatch`, because numpy
    rejects a boolean mask of the wrong shape.

  A plain chroma key would clear alpha at (i, j) when the pixel at (i, j)
  itself has the key colour; the code does not do that. With one red pixel at
  row 0, column 1 among three white ones, the code keeps exactly one cell
  opaque, but that cell is the white one at row 1, column 0
  (`OffDiagonalRedPixel`), and the red pixel becomes transparent. On the
  diagonal the rule is the plain key (`DiagonalIsPlainKey`,
  `DiagonalRedPixel`). Uploads are keyed
  before they are resized, so a non-square upload fails.
- **File names (`naming.dfy`).** A generated sticker is named
  `prefix + (number of names matching prefix*.png + 1) + ".png"`. An upload is
  named `"uploaded_" + filename`, with the file name taken verbatim. PIL
  picks the upload's output format from that name's extension, so an upload
  named like `cat.jpg`, whose format cannot hold RGBA, fails when it is saved.
- **Prompts (`prompts.dfy`).** The text, or the transcription, is followed by
  a fixed style suffix. The text flow and the voice flow use different
  suffixes.
- **The three flows (`pipeline.dfy`).** They are methods of a class
  `StickerService`. The class holds the directory as a map from file name to
  picture (so an overwrite is visible), and the list of model calls and
  writes in the order they were made. The diffusion pipeline, Whisper, the
  image decoder and the resampling filter are function-typed parameters. Each
  flow's postcondition says three things:
  - which calls it makes, in which order;
  - that it writes exactly one entry, and only after the model returned;
  - that every failure leaves the directory as it was: a model, transcription
    or decode error, a picture that is not square, or an upload name whose
    format cannot hold RGBA.

## Model

| member | source | states |
|---|---|---|
| `Raster.ToRgba` | ai_sticker_backend/main.py:62 | `convert("RGBA")` keeps size and R, G, B; RGB input gets alpha 255 everywhere; RGBA input is returned unchanged |
| `Raster.ToRgbaIdempotent` | ai_sticker_backend/main.py:100-101 | converting an already converted upload again changes nothing |
| `Transparency.Matches` | ai_sticker_backend/main.py:65 | the key test is exact equality of R, G and B with the key, no tolerance; a key component outside 0..255 is never matched |
| `Transparency.MatchIgnoresAlpha` | ai_sticker_backend/main.py:64-65 | whether a pixel is keyed does not depend on its alpha; only the R, G and B planes enter the mask |
| `Transparency.Transparent` | ai_sticker_backend/main.py:61-67 | the transform succeeds exactly when the picture is square; the result is RGBA with the input's height and width |
| `Transparency.ApplyMask` | ai_sticker_backend/main.py:66 | the mask must have the alpha plane's shape, else nothing is written; otherwise alpha is cleared exactly where the mask holds and every other cell is unchanged |
| `Transparency.MakeTransparent` | ai_sticker_backend/main.py:61-67 | converting, copying into an array, building the mask from the transposed planes and applying it in place yields exactly `Transparent(img, key)` |
| `Transparency.KeepsColours` | ai_sticker_backend/main.py:62-67 | every R, G and B value survives; alpha is kept or lowered to 0, never raised |
| `Transparency.TransposedRule` | ai_sticker_backend/main.py:64-66 | on a square picture, alpha(i, j) is 0 iff pixel (j, i) has exactly the key colour or alpha(i, j) was already 0; otherwise it is 255 for RGB input and the prior alpha for RGBA input |
| `Transparency.DiagonalIsPlainKey` | ai_sticker_backend/main.py:64-66 | on the diagonal the transposed mask acts as a plain chroma key |
| `Transparency.Idempotent` | ai_sticker_backend/main.py:64-66 | keying twice with the same colour equals keying once |
| `Transparency.UniformKeyVanishes` | ai_sticker_backend/main.py:64-66 | a square picture entirely in the key colour becomes entirely transparent |
| `Transparency.AllWhiteTwoByTwo` | ai_sticker_backend/main.py:61-66 | with the default white key, a 2 x 2 all-white picture gets alpha 0 everywhere |
| `Transparency.OffDiagonalRedPixel` | ai_sticker_backend/main.py:64-66 | a red pixel at (0, 1) among white ones becomes transparent itself, and the white pixel at (1, 0) stays opaque |
| `Transparency.DiagonalRedPixel` | ai_sticker_backend/main.py:64-66 | a red pixel at (0, 0) among white ones stays opaque and the three white pixels become transparent |
| `Transparency.NonSquareRejected` | ai_sticker_backend/main.py:64-66 | a picture whose height differs from its width always yields `ShapeMismatch` |
| `Naming.Decimal` | ai_sticker_backend/main.py:90 | the number in a name is a non-empty string of decimal digits, with no leading zero except for 0 |
| `Naming.DecimalRoundTrip` | ai_sticker_backend/main.py:90 | parsing the printed number gives the number back |
| `Naming.DecimalInjective` | ai_sticker_backend/main.py:90 | two numbers print the same exactly when they are equal |
| `Naming.NumberedName` | ai_sticker_backend/main.py:133 | `prefix + str(k) + ".png"` is itself matched by the glob `prefix*.png` |
| `Naming.GlobSemantics` | ai_sticker_backend/main.py:90 | a name matches `prefix*.png` exactly when it is the prefix, any middle part (possibly empty) and ".png", in that order |
| `Naming.Matching` | ai_sticker_backend/main.py:133 | the glob's result is part of the directory, and every directory name it leaves out is one the glob does not match |
| `Naming.MatchingMember` | ai_sticker_backend/main.py:133 | a directory name is among the glob's names exactly when the glob matches it |
| `Naming.SameCategoryCounted` | ai_sticker_backend/main.py:90 | writing a name the glob matches adds exactly that name to what the glob finds |
| `Naming.GeneratedName` | ai_sticker_backend/main.py:90 | the new name is the (count + 1)-th numbered name of the category, and the category's own glob counts it |
| `Naming.UploadName` | ai_sticker_backend/main.py:104 | the upload name is "uploaded_" followed by the client's file name, verbatim |
| `Naming.UploadNameInjective` | ai_sticker_backend/main.py:104-105 | two uploads get the same path exactly when their file names are equal, so the second overwrites the first |
| `Naming.NumberedNameInjective` | ai_sticker_backend/main.py:90 | two numbered names of a category are equal exactly when their numbers are |
| `Naming.NumberedNamesMembers` | ai_sticker_backend/main.py:90 | the k-th name is among the first n names exactly when 1 <= k <= n |
| `Naming.NumberedNamesCount` | ai_sticker_backend/main.py:90 | the first n names are n distinct names |
| `Naming.NextNumberedName` | ai_sticker_backend/main.py:90 | when the glob finds exactly names 1..n, the next name is the (n+1)-th |
| `Naming.SequentialNaming` | ai_sticker_backend/main.py:90-91 | if the glob finds exactly names 1..n, the next name is n+1, it is not yet in the directory, and after it is written the glob finds exactly names 1..n+1 |
| `Naming.ThirdTextSticker` | ai_sticker_backend/main.py:90 | with generated_sticker_1.png and generated_sticker_2.png present, the next text sticker is generated_sticker_3.png |
| `Naming.CountCanCollide` | ai_sticker_backend/main.py:90 | the counter is a count, not a maximum: with only generated_sticker_2.png present, the next name is that same existing file |
| `Naming.CategoriesDisjoint` | ai_sticker_backend/main.py:133 | voice and upload names are never matched by the text glob, and text and upload names never by the voice glob |
| `Naming.OtherCategoryNotCounted` | ai_sticker_backend/main.py:90 | adding a name the glob does not match leaves the count unchanged |
| `Naming.CountersIndependent` | ai_sticker_backend/main.py:90-133 | an upload leaves both generated counters unchanged, a voice sticker leaves the text counter unchanged, and a text sticker leaves the voice counter unchanged |
| `Prompts.Styled` | ai_sticker_backend/main.py:81 | a prompt is the subject followed by the style suffix: its first part is the subject and the rest is the suffix |
| `Prompts.TextPrompt` | ai_sticker_backend/main.py:81 | the text flow's prompt is the user's text followed by ", cute cartoon sticker, bold outlines, colorful vector art, white background" |
| `Prompts.VoicePrompt` | ai_sticker_backend/main.py:123 | the voice flow's prompt is the transcription followed by ", cartoon style sticker, bold outlines, colorful vector, white background" |
| `Prompts.Unstyled` | ai_sticker_backend/main.py:81 | removing the suffix, when present, gives back a subject that styles to the same prompt |
| `Prompts.PromptRoundTrip` | ai_sticker_backend/main.py:81 | the user's text is recovered verbatim from its prompt |
| `Prompts.TextAndVoicePromptsDiffer` | ai_sticker_backend/main.py:123 | no text prompt equals any voice prompt, because the two suffixes differ |
| `Pipeline.Resize` | ai_sticker_backend/main.py:102 | the resized upload is 384 x 384 and keeps its mode |
| `Pipeline.PathOf` | ai_sticker_backend/main.py:104 | the path the FileResponse serves is "generated_stickers/" followed by the file name |
| `Pipeline.StickerService.constructor` | ai_sticker_backend/main.py:30-31 | the service starts over the directory's existing files, with no calls made yet |
| `Pipeline.StickerService.StoreGenerated` | ai_sticker_backend/main.py:87-91 | the generated picture is keyed on white and saved under the category's next counted name as the only new write; if the key step fails, nothing is written |
| `Pipeline.StickerService.GenerateSticker` | ai_sticker_backend/main.py:79-93 | one synthesis call with the text prompt at 384 x 384 and 12 steps, then, only if it returned, the save of its keyed picture; a model failure leaves the directory unchanged; no existing name disappears |
| `Pipeline.StickerService.UploadImage` | ai_sticker_backend/main.py:98-107 | decode, key on white, then resize to 384 x 384 and save as "uploaded_" + filename; no model call is made; a decode failure, a shape failure or a name whose format cannot hold RGBA writes nothing; no existing name disappears |
| `Pipeline.StickerService.GenerateStickerFromVoice` | ai_sticker_backend/main.py:112-136 | transcription first, then one synthesis call with the voice prompt built from the transcription, then at most one save; any failure leaves the directory unchanged |
| `Pipeline.RepeatedUpload` | ai_sticker_backend/main.py:104-105 | two uploads of the same file name return the same path, and the directory then holds the second picture under it |
| `Pipeline.HelloVoice` | ai_sticker_backend/main.py:119-127 | when the transcription is "hello", the model is asked for "hello" followed by the voice style, at 384 x 384 with 12 steps, right after the transcription |
| `Pipeline.UnsavableUpload` | ai_sticker_backend/main.py:104-105 | a square upload named "cat.jpg", whose format cannot hold RGBA, fails with an encoding error and leaves the directory unchanged |
| `Pipeline.NextTextSticker` | ai_sticker_backend/main.py:85-91 | under sequential use, the (n+1)-th text request answers with the (n+1)-th name, which did not exist before, and the numbering stays 1..n+1 |

## Left out

- The HTTP layer is not modelled: the FastAPI app, CORS middleware, form and multipart parsing, `FileResponse` and the home route. Responses are reduced to a path with a media type, or an error.
- Model loading is not modelled: device and dtype selection, attention slicing, xformers and `torch.autocast`. The diffusion pipeline and Whisper are function-typed parameters. The model only fixes what each receives (prompt, 384 x 384, 12 steps; a BytesIO over the audio bytes, recorded as those bytes) and that an exception becomes a failure response. Whether Whisper's pipeline accepts a BytesIO at all is not modelled; if it raises on one, every voice request ends in the transcriber's error case, which the model covers.
- Image decoding, the concrete bicubic resampling filter and PNG encoding are library numerics. Decoding is a parameter, resampling is a parameter giving each output pixel, and a saved file is modelled as the picture itself.
- PIL modes other than RGB and RGBA (L, P, CMYK, ...) are not modelled. They would go through other paths of `convert("RGBA")`.
- Keys outside the byte range: the key is compared with integer components taken at face value. A key component outside 0..255 simply never matches; no numpy casting rule beyond that is modelled.
- Generator output shape: the diffusion pipeline asked for 384 x 384 always returns a 384 x 384 picture, but the `Generator` parameter may return any picture. The `ShapeMismatch` branch of `Pipeline.StickerService.StoredGenerated` is therefore reachable in the model but not in the service, and `Pipeline.NextTextSticker` states squareness of the output as a precondition.
- Glob details: the glob is modelled as a case-sensitive match on one flat directory. Case-insensitive matching, as on Windows, and entries that are directories are not modelled.
- Unusual upload names: a client file name holding a path separator, or no file name at all, is not modelled. Such names would make the write go elsewhere or fail.
- Write failures caused by the environment are not modelled: a full disk or a permission error would raise from `save`. Generated stickers always end in ".png", which can hold RGBA, so their saves succeed in the model.
- Pipeline.StickerService.UploadImage: which extensions select a format that can hold RGBA is a parameter (`canSave`), not Pillow's own table of formats. When a save into an existing name fails after the file was opened, Pillow may leave that file truncated; the model leaves the directory entry as it was.
- Concurrent requests and `async` are not modelled. The count-based counter can race between requests; the model is sequential and claims a fresh name only under the precondition of `Naming.SequentialNaming`.
- The process-start directory creation and the start-up messages are not modelled.
