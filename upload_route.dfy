/**
 * `/api/upload`: takes the files of a multipart form, refuses an empty form,
 * refuses to run without the three hosting credentials, then uploads every
 * file and answers with one entry per file, or with a 500 if any upload
 * fails. The hosting service is the `uploader` parameter: it returns the
 * stored asset for a file's bytes and options, or None when it fails.
 */
module UploadRoute {
  import opened Wrappers
  import opened Http
  import Text

  const NO_FILES_ERROR := "Nenhum arquivo enviado"
  const NOT_CONFIGURED_ERROR := "Cloudinary não configurado. Configure as variáveis de ambiente."
  const UPLOAD_ERROR := "Erro ao fazer upload dos arquivos"
  const FOLDER := "depenados/media"

  datatype UploadFile = UploadFile(name: string, contentType: string, bytes: seq<bv8>)

  /** The three credentials as the environment holds them. */
  datatype Env = Env(cloudName: Option<string>, apiKey: Option<string>, apiSecret: Option<string>)

  datatype ResourceType = ImageResource | VideoResource

  datatype UploadOptions = UploadOptions(folder: string, resourceType: ResourceType)

  /** The fields of the hosting service's answer the route reads. */
  datatype CloudAsset = CloudAsset(publicId: string, secureUrl: string, width: int, height: int)

  datatype UploadedFile = UploadedFile(id: string, url: string, kind: string, originalName: string, width: int, height: int)

  datatype UploadBody = UploadBody(files: seq<UploadedFile>)

  /** A variable is set when it is present and not empty. */
  predicate IsSet(v: Option<string>) {
    v.Some? && v.value != ""
  }

  predicate Configured(env: Env) {
    IsSet(env.cloudName) && IsSet(env.apiKey) && IsSet(env.apiSecret)
  }

  predicate IsVideo(f: UploadFile) {
    Text.StartsWith(f.contentType, "video/")
  }

  /** The hint passed to the uploader. */
  function ResourceFor(f: UploadFile): (r: ResourceType)
    ensures r == VideoResource <==> IsVideo(f)
  {
    if IsVideo(f) then VideoResource else ImageResource
  }

  /** The type reported back. */
  function KindFor(f: UploadFile): (k: string)
    ensures k == "video" <==> IsVideo(f)
    ensures k == "video" || k == "image"
  {
    if IsVideo(f) then "video" else "image"
  }

  /** An audio file is neither uploaded nor reported as a video. */
  lemma AudioIsReportedAsImage(f: UploadFile)
    requires Text.StartsWith(f.contentType, "audio/")
    ensures KindFor(f) == "image" && ResourceFor(f) == ImageResource
  {
    assert f.contentType[..6] == "audio/";
    assert f.contentType[0] == 'a';
  }

  /** The reported type and the hint always agree. */
  lemma KindMatchesResource(f: UploadFile)
    ensures KindFor(f) == "video" <==> ResourceFor(f) == VideoResource
  {
  }

  function Entry(f: UploadFile, a: CloudAsset): UploadedFile {
    UploadedFile(a.publicId, a.secureUrl, KindFor(f), f.name, a.width, a.height)
  }

  function Upload1(f: UploadFile, uploader: (seq<bv8>, UploadOptions) -> Option<CloudAsset>): Option<CloudAsset> {
    uploader(f.bytes, UploadOptions(FOLDER, ResourceFor(f)))
  }

  /** Every file uploaded, in order; None as soon as one upload fails. */
  function UploadAll(files: seq<UploadFile>, uploader: (seq<bv8>, UploadOptions) -> Option<CloudAsset>): (r: Option<seq<UploadedFile>>)
    ensures r.Some? <==> forall i :: 0 <= i < |files| ==> Upload1(files[i], uploader).Some?
    ensures r.Some? ==> |r.value| == |files|
    ensures r.Some? ==> forall i :: 0 <= i < |files| ==> r.value[i] == Entry(files[i], Upload1(files[i], uploader).value)
    decreases |files|
  {
    if files == [] then Some([])
    else
      match Upload1(files[0], uploader)
      case None => None
      case Some(a) =>
        match UploadAll(files[1..], uploader)
        case None => None
        case Some(rest) => Some([Entry(files[0], a)] + rest)
  }

  /**
   * POST. `form` is None when the request is not a readable multipart form.
   * The empty-form check comes before the credential check.
   */
  function HandlePost(form: Option<seq<UploadFile>>, env: Env,
                      uploader: (seq<bv8>, UploadOptions) -> Option<CloudAsset>): (resp: Response<UploadBody>)
    ensures form.None? ==> resp == ServerError(UPLOAD_ERROR)
    ensures form == Some([]) ==> resp == BadRequest(NO_FILES_ERROR)
    ensures form.Some? && form.value != [] && !Configured(env) ==> resp == ServerError(NOT_CONFIGURED_ERROR)
    ensures resp.status == 200 <==>
      form.Some? && form.value != [] && Configured(env) && UploadAll(form.value, uploader).Some?
    ensures resp.status == 200 ==> resp == Ok200(UploadBody(UploadAll(form.value, uploader).value))
    ensures resp.status != 200 ==> resp.body.Failure?
  {
    if form.None? then ServerError(UPLOAD_ERROR)
    else if form.value == [] then BadRequest(NO_FILES_ERROR)
    else if !Configured(env) then ServerError(NOT_CONFIGURED_ERROR)
    else
      match UploadAll(form.value, uploader)
      case None => ServerError(UPLOAD_ERROR)
      case Some(files) => Ok200(UploadBody(files))
  }

  /** Without credentials the uploader's behaviour makes no difference: nothing is uploaded. */
  lemma UnconfiguredNeverUploads(form: seq<UploadFile>, env: Env,
                                 u1: (seq<bv8>, UploadOptions) -> Option<CloudAsset>,
                                 u2: (seq<bv8>, UploadOptions) -> Option<CloudAsset>)
    requires !Configured(env)
    ensures HandlePost(Some(form), env, u1) == HandlePost(Some(form), env, u2)
  {
  }

  /** One failing upload fails the whole request, with no partial list. */
  lemma OneFailureFailsAll(form: seq<UploadFile>, env: Env,
                           uploader: (seq<bv8>, UploadOptions) -> Option<CloudAsset>, k: int)
    requires 0 <= k < |form| && Upload1(form[k], uploader).None?
    ensures HandlePost(Some(form), env, uploader).status != 200
    ensures HandlePost(Some(form), env, uploader).body.Failure?
  {
  }
}
