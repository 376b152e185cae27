# rust-ai-streambot core, modelled in Dafny

rust-ai-streambot watches an MPEG transport stream and generates commentary and images
about it. This project models three pieces of its logic and proves what they guarantee.

- **The per-PID stream records** (`src/stream_data.rs`). This covers the `StreamData`
  record and its serialised form, which omits the packet buffer. It also covers the
  process-wide registry that maps each 16-bit Packet Identifier (PID) to its latest
  record, and the text summary that `get_pid_map` builds from that registry. The
  summary has one line per PID. Each line shows the registry key, then the record's
  fields other than its own `pid`, `packet`, `packet_start` and `packet_len`. Integers
  are printed in decimal, and `stream_type` and `rtp_payload_type_name` are printed
  verbatim.
  The PAT PID (0) and the 188-byte transport packet size are constants of the model.
  So are the PAT and PMT entry types and the `Codec` enumeration with its display names.
- **The Stable Diffusion file selection** (`src/stable_diffusion.rs`). This covers:
  - the model-hub repository and the weight file names of each model version;
  - how `ModelFile::get` chooses between a path the caller gave and a hub file, including
    the fixed f16 VAE of the SDXL family;
  - the tokenizer and CLIP weights picked for the first and second text encoders;
  - the padding token's id, and the padding of prompt tokens up to the CLIP context
    length;
  - the rounding of input image sizes down to a multiple of 32.
- **Two byte-level predicates of the MPEG-TS inspector** (`src/mpegts.rs`): what counts
  as standard ASCII, and when registered ITU-T T.35 user data is taken to be CEA-608
  captions.

Modules:
- `Common`: the Rust integer widths as subset types, an `Option` type, and integer ranges.
- `Decimal`: Rust's `{}` formatting of unsigned integers, with its inverse.
- `Lines`: texts made of newline-terminated lines, and splitting them back into lines.
- `StreamRecords`: the records, the serialised form, the summary line, the registry
  class `PidRegistry` and its `PidMap` method.
- `StableDiffusion`: the file selection, the padding and the image size.
- `MpegTs`: the two predicates.

The registry is a hash map, so the order in which `get_pid_map` visits its entries is
unspecified. `PidMap` returns that order as a ghost value, which is a permutation of the
registry's keys. Its result is then stated as a function of the registry and that order.

## Model

| member | source | states |
|---|---|---|
| StreamRecords.PidRegistry.PidMap | src/stream_data.rs:22-65 | Visits every registered PID exactly once, in some order, and appends one summary line with a trailing newline per PID. An empty registry gives the empty string. |
| StreamRecords.PidMapLines | src/stream_data.rs:26-61 | When no record's strings contain a line break, the PID map text has exactly one line and one newline per registered PID. Each PID's summary line is among the lines, and every line is the summary of some registered PID. |
| StreamRecords.PidMapLinesDistinct | src/stream_data.rs:26-61 | Under the same condition, no two lines of the PID map text are equal, so no PID is listed twice. |
| StreamRecords.EnumerationHasNoRepeats | src/stream_data.rs:26 | An enumeration of the registry's keys lists no key twice. |
| StreamRecords.SummaryLine | src/stream_data.rs:30-60 | A PID's summary line starts with "PID: ", the PID in decimal and ", PMT PID: ". |
| StreamRecords.SummaryLineDistinct | src/stream_data.rs:30-33 | Summary lines of different PIDs differ, whatever their records hold, because each line starts with its own PID. |
| StreamRecords.RenderSnoc | src/stream_data.rs:61 | Visiting one more PID appends exactly that PID's summary line and a newline to the text. |
| StreamRecords.SummaryLineStart | src/stream_data.rs:30-35 | A summary line starts with "PID: ", the PID in decimal, ", PMT PID: " and so on for the PMT PID, program number and stream type, followed by the remaining labelled fields. |
| StreamRecords.SummaryLineHasNoNewline | src/stream_data.rs:30-60 | A summary line contains no line break when the stream type and RTP payload type name contain none. |
| StreamRecords.SummaryLinesPerKey | src/stream_data.rs:26-30 | Visiting an enumeration of the keys produces each PID's summary line, and nothing else. |
| StreamRecords.EnumerationFacts | src/stream_data.rs:26 | A permutation of the key set lists exactly the keys, each once. |
| StreamRecords.RegistrySizeBound | src/stream_data.rs:18-20 | The PID-keyed registry holds at most 65536 records. |
| StreamRecords.PidRegistry.constructor | src/stream_data.rs:19 | The registry starts empty. |
| StreamRecords.PidRegistry.Insert | src/stream_data.rs:19 | Storing a record for a PID replaces any earlier record for it and leaves the other PIDs' records unchanged. |
| StreamRecords.SerializeSkipsPacket | src/stream_data.rs:105-140 | The serialised record has no "packet" key and does not depend on the packet bytes. It still carries `packet_start` and `packet_len` with their values. |
| StreamRecords.Serialize | src/stream_data.rs:105-140 | The serialised record's keys are the snake_case field names in declaration order without `packet`, and each key carries that field's value. |
| StreamRecords.Zip | src/stream_data.rs:105-140 | The serialised form lists the field names in declaration order. |
| StreamRecords.CodecName | src/stream_data.rs:93-102 | A codec's display name is non-empty and on one line, and it is "NONE" exactly for the NONE codec. |
| StreamRecords.CodecNameInjective | src/stream_data.rs:93-102 | Two codecs display the same name exactly when they are the same codec. |
| Decimal.DecimalString | src/stream_data.rs:31-59 | An integer's `{}` text is a non-empty run of digits, has no leading zero, and contains no line break. |
| Decimal.DecimalRoundTrip | src/stream_data.rs:31-59 | Reading back an integer's decimal text gives the integer. |
| Decimal.DecimalStringInjective | src/stream_data.rs:31-59 | Different integers get different decimal texts. |
| Decimal.DigitRunUnique | src/stream_data.rs:31-32 | A decimal value followed by a comma can be read back from the text it starts. |
| Lines.SplitJoinLines | src/stream_data.rs:61 | Splitting the text made of one-line strings, each followed by "\n", gives those strings back. |
| Lines.JoinLinesNewlineCount | src/stream_data.rs:61 | That text has exactly one newline per string. |
| Lines.JoinLinesSnoc | src/stream_data.rs:61 | Appending a line to the list appends the line and a newline to the text. |
| StableDiffusion.Repo | src/stable_diffusion.rs:38-46 | The repository is "stabilityai/sdxl-turbo" exactly for Turbo and Custom. It is an SDXL repository exactly for the SDXL family (Xl, Turbo, Custom). |
| StableDiffusion.TurboAndCustomShareRepo | src/stable_diffusion.rs:38-46 | SDXL Turbo and the custom version both download from "stabilityai/sdxl-turbo". |
| StableDiffusion.UnetFile | src/stable_diffusion.rs:48-58 | The UNet weights are a safetensors file, named as f16 exactly when f16 is requested. |
| StableDiffusion.VaeFile | src/stable_diffusion.rs:60-70 | The VAE weights are a safetensors file, named as f16 exactly when f16 is requested. |
| StableDiffusion.ClipFile | src/stable_diffusion.rs:72-82 | The first CLIP encoder's weights are a safetensors file, named as f16 exactly when f16 is requested. |
| StableDiffusion.Clip2File | src/stable_diffusion.rs:84-94 | The second CLIP encoder's weights are a safetensors file, named as f16 exactly when f16 is requested. |
| StableDiffusion.WeightFilesIgnoreVersion | src/stable_diffusion.rs:48-94 | No weight file name depends on the model version. |
| StableDiffusion.HubLocation | src/stable_diffusion.rs:108-127 | Tokenizers come from "tokenizer.json". The CLIP, CLIP2 and UNet weights come from the version's own repository, in a safetensors file that is f16-named exactly when f16 is requested. |
| StableDiffusion.TokenizerLocations | src/stable_diffusion.rs:109-124 | The first tokenizer is CLIP base for v1.5 and v2.1 and CLIP large for the SDXL family. The second is OpenCLIP bigG for every version. |
| StableDiffusion.VaeLocation | src/stable_diffusion.rs:128-143 | The SDXL family with f16 weights takes the VAE from "madebyollin/sdxl-vae-fp16-fix". Every other case uses the version's own repository and VAE file. |
| StableDiffusion.VaeFileName | src/stable_diffusion.rs:128-143 | The VAE file is always safetensors. It is f16-named exactly when f16 is requested outside the SDXL family, because the fixed SDXL VAE has a plain name. |
| StableDiffusion.Resolve | src/stable_diffusion.rs:105-147 | A file name the caller gives is used as is. Otherwise the file is the hub file that the version and the f16 flag select. |
| StableDiffusion.TextEncoderFiles | src/stable_diffusion.rs:166-198 | Paths the caller gives win. The first encoder's tokenizer is CLIP base ("openai/clip-vit-base-patch32") for v1.5 and v2.1 and CLIP large ("openai/clip-vit-large-patch14") for the SDXL family, and its weights are `text_encoder/model.safetensors`. The second encoder uses the OpenCLIP bigG tokenizer and `text_encoder_2/model.safetensors`. The CLIP weights are always the full-precision file of the version's repository. |
| StableDiffusion.PadId | src/stable_diffusion.rs:173-176 | The pad id is the vocabulary id of the configured padding token, or of "<\|endoftext\|>" when none is configured. The result is missing exactly when that token is not in the vocabulary. |
| StableDiffusion.PadTokens | src/stable_diffusion.rs:187-189 | Pads the token ids with the pad id up to the CLIP context length. The original tokens are kept as a prefix, and a sequence that is already long enough is unchanged. |
| StableDiffusion.PreprocessSize | src/stable_diffusion.rs:232-234 | Each image dimension is rounded down to a multiple of 32. The result is less than 32 below the original and never above it. |
| StableDiffusion.PreprocessSizeIsLargest | src/stable_diffusion.rs:233-234 | Every multiple of 32 that fits within a dimension is at most the rounded dimension. |
| MpegTs.IsStandardAscii | src/mpegts.rs:42-45 | An accepted byte is a 7-bit code, and no C0 control byte (below 0x20) is accepted. |
| MpegTs.StandardAsciiBounds | src/mpegts.rs:42-45 | 0x20 and 0x7F are accepted. Every byte below 0x20, including line feed, and every byte from 0x80 up is rejected. |
| MpegTs.StandardAsciiCount | src/mpegts.rs:43-45 | Exactly 96 byte values are accepted. |
| MpegTs.ItuTT35FromCode | src/mpegts.rs:36-38 | Country code 0xB5 decodes to the United States, and every other code to another country carrying that code. |
| MpegTs.IsCea608 | src/mpegts.rs:33-40 | Data is taken to be CEA-608 exactly when its country is the one that code 0xB5 decodes to. |
| MpegTs.Cea608OnlyForUnitedStates | src/mpegts.rs:33-40 | T.35 user data is taken to be CEA-608 exactly for the United States country code 0xB5. |

## Left out

- The `Mutex` around the registry and the `Arc` sharing of records are not modelled; the registry is a single object updated in place.
- `PidRegistry.Insert` is a plain map insertion. The packet functions that fill the registry (`update_pid_map` and the others) are not part of this model, so how and when they insert records is not modelled.
- Deserialisation and the JSON text itself are not modelled. The serialised form is the ordered list of key/value pairs serde produces.
- StreamRecords.PidMapLines: the line-count statements require that no record's `stream_type` or `rtp_payload_type_name` contains a line break. Without that, a record can add extra lines to the text.
- `get_pid_map`'s hash-map iteration order is not modelled. The model fixes only that the order is some permutation of the keys.
- The model-hub download at src/stable_diffusion.rs:145 and its errors are not modelled. `Resolve` returns the repository and file that would be fetched.
- StableDiffusion.PadId: the source unwraps a missing vocabulary entry and panics; the model returns `None` there instead of stopping.
- `truncate_tokens`, tokenisation, the CLIP transformer, tensors, the UNet and VAE runs and image decoding and resizing are not modelled. They are numeric or foreign-library code.
- `PadTokens` takes the context length as a parameter. The source pads the prompts of both text encoders to the first CLIP configuration's `max_position_embeddings`, and callers of the model pass that value.
- The ITU-T T.35 decoding of SEI messages belongs to the `h264_reader` library, which is not part of this model. `MpegTs.ItuTT35FromCode` maps the one-byte country code, with 0xB5 for the United States, and does not model the 0xFF extension byte.
- The remaining files of the repository (argument parsing, LLM clients, audio, the network capture loop) are outside this model.
