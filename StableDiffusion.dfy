/**
 * The integer and string logic of the Stable Diffusion image generator: which weight and
 * tokenizer files a model version loads, how prompt tokens are padded, and how input
 * image sizes are rounded.
 */
module StableDiffusion {
  import opened Common

  datatype StableDiffusionVersion = V1_5 | V2_1 | Xl | Turbo | Custom

  /** The files a generation run needs. */
  datatype ModelFile = Tokenizer | Tokenizer2 | Clip | Clip2 | Unet | Vae

  /** The SDXL family, whose f16 VAE is replaced by a fixed one. */
  predicate IsXlFamily(version: StableDiffusionVersion) {
    version == Xl || version == Turbo || version == Custom
  }

  /** The model-hub repository holding a version's weights. */
  function Repo(version: StableDiffusionVersion): (repo: string)
    ensures repo == "stabilityai/sdxl-turbo" <==> version == Turbo || version == Custom
    ensures IsXlFamily(version) <==>
              repo == "stabilityai/stable-diffusion-xl-base-1.0" || repo == "stabilityai/sdxl-turbo"
  {
    match version
    case Xl => "stabilityai/stable-diffusion-xl-base-1.0"
    case V2_1 => "stabilityai/stable-diffusion-2-1"
    case V1_5 => "runwayml/stable-diffusion-v1-5"
    case Turbo => "stabilityai/sdxl-turbo"
    case Custom => "stabilityai/sdxl-turbo"
  }

  predicate EndsWith(s: string, suffix: string) {
    |suffix| <= |s| && s[|s| - |suffix|..] == suffix
  }

  /** A file of half-precision weights. */
  predicate IsFp16Name(name: string) {
    EndsWith(name, ".fp16.safetensors")
  }

  /** A safetensors weight file. */
  predicate IsSafetensorsName(name: string) {
    EndsWith(name, ".safetensors")
  }

  // The source matches on the version with a single arm for all five versions, so every
  // weight file name depends on the f16 flag alone.

  function UnetFile(version: StableDiffusionVersion, useF16: bool): (name: string)
    ensures IsSafetensorsName(name) && (IsFp16Name(name) <==> useF16)
  {
    if useF16 then "unet/diffusion_pytorch_model.fp16.safetensors"
    else "unet/diffusion_pytorch_model.safetensors"
  }

  function VaeFile(version: StableDiffusionVersion, useF16: bool): (name: string)
    ensures IsSafetensorsName(name) && (IsFp16Name(name) <==> useF16)
  {
    if useF16 then "vae/diffusion_pytorch_model.fp16.safetensors"
    else "vae/diffusion_pytorch_model.safetensors"
  }

  function ClipFile(version: StableDiffusionVersion, useF16: bool): (name: string)
    ensures IsSafetensorsName(name) && (IsFp16Name(name) <==> useF16)
  {
    if useF16 then "text_encoder/model.fp16.safetensors"
    else "text_encoder/model.safetensors"
  }

  function Clip2File(version: StableDiffusionVersion, useF16: bool): (name: string)
    ensures IsSafetensorsName(name) && (IsFp16Name(name) <==> useF16)
  {
    if useF16 then "text_encoder_2/model.fp16.safetensors"
    else "text_encoder_2/model.safetensors"
  }

  /** Every weight file name depends on the f16 flag alone, not on the model version. */
  lemma WeightFilesIgnoreVersion(v: StableDiffusionVersion, w: StableDiffusionVersion, useF16: bool)
    ensures UnetFile(v, useF16) == UnetFile(w, useF16)
    ensures VaeFile(v, useF16) == VaeFile(w, useF16)
    ensures ClipFile(v, useF16) == ClipFile(w, useF16)
    ensures Clip2File(v, useF16) == Clip2File(w, useF16)
  {
  }

  /** SDXL Turbo and the custom version share one repository. */
  lemma TurboAndCustomShareRepo()
    ensures Repo(Turbo) == Repo(Custom) == "stabilityai/sdxl-turbo"
  {
  }

  const Fp16FixVaeRepo: string := "madebyollin/sdxl-vae-fp16-fix"

  /** Where a file comes from: a path the caller gave, or a file of a model-hub repository. */
  datatype ModelPath = LocalPath(path: string) | HubFile(repo: string, file: string)

  /** The repository of the first tokenizer: CLIP base for v1.5 and v2.1, CLIP large otherwise. */
  function TokenizerRepo(version: StableDiffusionVersion): string {
    match version
    case V1_5 | V2_1 => "openai/clip-vit-base-patch32"
    case Xl | Turbo | Custom => "openai/clip-vit-large-patch14"
  }

  /** The model-hub repository and file path of a model file. */
  function HubLocation(file: ModelFile, version: StableDiffusionVersion, useF16: bool): (r: (string, string))
    ensures file == Tokenizer || file == Tokenizer2 ==> r.1 == "tokenizer.json"
    ensures file == Clip || file == Clip2 || file == Unet ==>
              r.0 == Repo(version) && IsSafetensorsName(r.1) && (IsFp16Name(r.1) <==> useF16)
  {
    match file
    case Tokenizer => (TokenizerRepo(version), "tokenizer.json")
    case Tokenizer2 => ("laion/CLIP-ViT-bigG-14-laion2B-39B-b160k", "tokenizer.json")
    case Clip => (Repo(version), ClipFile(version, useF16))
    case Clip2 => (Repo(version), Clip2File(version, useF16))
    case Unet => (Repo(version), UnetFile(version, useF16))
    case Vae =>
      // SDXL-family f16 weights use a separately published VAE
      if IsXlFamily(version) && useF16 then
        (Fp16FixVaeRepo, "diffusion_pytorch_model.safetensors")
      else
        (Repo(version), VaeFile(version, useF16))
  }

  /** The tokenizers: CLIP base for v1.5 and v2.1, CLIP large for the SDXL family, OpenCLIP bigG second. */
  lemma TokenizerLocations(version: StableDiffusionVersion, useF16: bool)
    ensures HubLocation(Tokenizer, version, useF16) ==
      (if IsXlFamily(version) then "openai/clip-vit-large-patch14" else "openai/clip-vit-base-patch32",
       "tokenizer.json")
    ensures HubLocation(Tokenizer2, version, useF16) ==
      ("laion/CLIP-ViT-bigG-14-laion2B-39B-b160k", "tokenizer.json")
  {
  }

  /** The VAE: the fixed f16 VAE for the SDXL family with f16 weights, the version's own otherwise. */
  lemma VaeLocation(version: StableDiffusionVersion, useF16: bool)
    ensures HubLocation(Vae, version, useF16) ==
      if IsXlFamily(version) && useF16 then (Fp16FixVaeRepo, "diffusion_pytorch_model.safetensors")
      else (Repo(version), VaeFile(version, useF16))
    ensures HubLocation(Vae, version, useF16).0 == Repo(version) <==> !(useF16 && IsXlFamily(version))
  {
  }

  /**
   * The VAE is always a safetensors file, and an f16-named one exactly when f16 weights are
   * asked for outside the SDXL family: the fixed SDXL VAE is published under the plain name.
   */
  lemma VaeFileName(version: StableDiffusionVersion, useF16: bool)
    ensures IsSafetensorsName(HubLocation(Vae, version, useF16).1)
    ensures IsFp16Name(HubLocation(Vae, version, useF16).1) <==> useF16 && !IsXlFamily(version)
  {
    var fixedName := "diffusion_pytorch_model.safetensors";
    assert fixedName[|fixedName| - 17..] != ".fp16.safetensors";
  }

  /**
   * The file to load: an explicitly given file name is used as it is; otherwise the file is
   * looked up in the model hub (the download itself is not part of this model).
   */
  function Resolve(file: ModelFile, filename: Option<string>, version: StableDiffusionVersion,
                   useF16: bool): (r: ModelPath)
    ensures filename.Some? ==> r == LocalPath(filename.value)
    ensures filename.None? ==> r.HubFile? && (r.repo, r.file) == HubLocation(file, version, useF16)
  {
    match filename
    case Some(name) => LocalPath(name)
    case None =>
      var (repo, path) := HubLocation(file, version, useF16);
      HubFile(repo, path)
  }

  /**
   * The tokenizer and the CLIP weights that `text_embeddings` loads for the first or the
   * second text encoder. The CLIP weights are always the full-precision file.
   */
  function TextEncoderFiles(tokenizer: Option<string>, clipWeights: Option<string>,
                            version: StableDiffusionVersion, useF16: bool, first: bool)
    : (r: (ModelPath, ModelPath))
    ensures tokenizer.Some? ==> r.0 == LocalPath(tokenizer.value)
    ensures clipWeights.Some? ==> r.1 == LocalPath(clipWeights.value)
    ensures tokenizer.None? && !first ==>
              r.0 == HubFile("laion/CLIP-ViT-bigG-14-laion2B-39B-b160k", "tokenizer.json")
    ensures tokenizer.None? && first ==>
              r.0 == HubFile(if IsXlFamily(version) then "openai/clip-vit-large-patch14"
                             else "openai/clip-vit-base-patch32", "tokenizer.json")
    ensures clipWeights.None? ==>
              r.1 == HubFile(Repo(version),
                             if first then "text_encoder/model.safetensors"
                             else "text_encoder_2/model.safetensors")
  {
    var tokenizerFile := if first then Tokenizer else Tokenizer2;
    var clipFile := if first then Clip else Clip2;
    (Resolve(tokenizerFile, tokenizer, version, useF16), Resolve(clipFile, clipWeights, version, false))
  }

  /**
   * The id of the padding token: the configured padding token's, or that of "<|endoftext|>"
   * when none is configured. None where the token is not in the vocabulary (the source panics).
   */
  function PadId(vocab: map<string, u32>, padWith: Option<string>): (r: Option<u32>)
    ensures padWith.None? ==> (r.Some? <==> "<|endoftext|>" in vocab)
    ensures padWith.Some? ==> (r.Some? <==> padWith.value in vocab)
    ensures padWith.Some? && padWith.value in vocab ==> r == Some(vocab[padWith.value])
    ensures padWith.None? && "<|endoftext|>" in vocab ==> r == Some(vocab["<|endoftext|>"])
    ensures r.Some? ==> r.value in vocab.Values
  {
    var token := match padWith case Some(padding) => padding case None => "<|endoftext|>";
    if token in vocab then Some(vocab[token]) else None
  }

  /** Pads a prompt's token ids with `padId` up to `maxPositionEmbeddings` entries. */
  method PadTokens(tokens: seq<u32>, maxPositionEmbeddings: nat, padId: u32) returns (padded: seq<u32>)
    ensures |padded| == if |tokens| < maxPositionEmbeddings then maxPositionEmbeddings else |tokens|
    ensures padded[..|tokens|] == tokens
    ensures forall i :: |tokens| <= i < |padded| ==> padded[i] == padId
    ensures |tokens| >= maxPositionEmbeddings ==> padded == tokens
  {
    padded := tokens;
    while |padded| < maxPositionEmbeddings
      invariant |tokens| <= |padded|
      invariant |padded| <= maxPositionEmbeddings || padded == tokens
      invariant padded[..|tokens|] == tokens
      invariant forall i :: |tokens| <= i < |padded| ==> padded[i] == padId
      decreases maxPositionEmbeddings - |padded|
    {
      padded := padded + [padId];
    }
  }

  /**
   * The size an input image is resized to: height and width rounded down to multiples of 32.
   */
  function PreprocessSize(height: u32, width: u32): (r: (nat, nat))
    ensures r.0 <= height && r.0 % 32 == 0 && height - r.0 < 32
    ensures r.1 <= width && r.1 % 32 == 0 && width - r.1 < 32
  {
    (height - height % 32, width - width % 32)
  }

  /** No multiple of 32 lies between a rounded size and the original one. */
  lemma PreprocessSizeIsLargest(height: u32, width: u32, m: nat)
    requires m % 32 == 0
    ensures m <= height ==> m <= PreprocessSize(height, width).0
    ensures m <= width ==> m <= PreprocessSize(height, width).1
  {
  }
}
