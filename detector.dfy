/**
 * Interpreting the plate detector's reply and fetching the crop it points to.
 * main.py (`processar_placa`, stage 1) and app/services/task.py
 * (`process_plate_image_task`, stage 1) read the reply differently.
 */
module Detector {
  import opened Options
  import opened PyValues

  /** The detector's answer: none (the request raised) or a status with a body that may not be JSON. */
  datatype DetectorReply = NoReply | Reply(status: int, body: Option<Json>)

  /** What stage 1 hands to the OCR stage. */
  datatype Detection = Detection(crop: Bytes, fileId: Json, classe: Json)

  /**
   * `os.path.join(output_dir, file_id, f"{file_id}<ext>")`: always ending in
   * `<file_id><ext>`; `<output_dir>/<file_id>/<file_id><ext>` for a plain
   * `file_id` under a non-empty directory not ending in `/`; just
   * `<file_id><ext>` when `file_id` is absolute.
   */
  function StemPath(outputDir: string, fileId: string, ext: string): (r: string)
    requires |ext| > 0 && ext[0] != '/'
    ensures EndsWith(r, fileId + ext)
    ensures StartsWith(fileId, "/") ==> r == fileId + ext
    ensures outputDir != "" && !EndsWith(outputDir, "/") && PlainSegment(fileId) ==>
              r == outputDir + "/" + fileId + "/" + fileId + ext
  {
    LeafKeepsLead(fileId, ext);
    Join(outputDir, fileId, fileId + ext)
  }

  /** A leaf `<file_id><ext>`, with an extension not starting with `/`, is absolute exactly when `file_id` is. */
  lemma LeafKeepsLead(fileId: string, ext: string)
    requires |ext| > 0 && ext[0] != '/'
    ensures StartsWith(fileId + ext, "/") <==> StartsWith(fileId, "/")
  {
    if fileId != "" {
      assert (fileId + ext)[0] == fileId[0];
    } else {
      assert fileId + ext == ext;
    }
  }

  /** The crop path derived from a `file_id`: `os.path.join(output_dir, file_id, f"{file_id}.jpg")`. */
  function DerivedCropPath(outputDir: string, fileId: string): string {
    StemPath(outputDir, fileId, ".jpg")
  }

  // ---------------------------------------------------------------------
  // main.py
  // ---------------------------------------------------------------------

  /** main.py's two stage-1 error responses, both status 500. */
  datatype MainDetectError =
    | DetectorFailed(status: int)  // "YOLO falhou": a status other than 200 and 404
    | CropUnavailable              // "Falha ao obter imagem da placa": anything raised on the way

  /**
   * The path main.py opens: `yolo_json["arquivo"]` on 200, the derived path on
   * 404 (which needs a string `file_id`); `None` where the lookup raises.
   */
  function MainCropPath(status: int, m: map<string, Json>, outputDir: string): (r: Option<Json>)
    requires status == 200 || status == 404
    ensures status == 200 ==> (r.Some? <==> "arquivo" in m) && (r.Some? ==> r.value == m["arquivo"])
    ensures status == 404 ==> (r.Some? <==> "file_id" in m && m["file_id"].Str?) &&
                              (r.Some? ==> r.value == Str(DerivedCropPath(outputDir, m["file_id"].s)))
  {
    if status == 200 then
      (if "arquivo" in m then Some(m["arquivo"]) else None)
    else if "file_id" in m && m["file_id"].Str? then
      Some(Str(DerivedCropPath(outputDir, m["file_id"].s)))
    else
      None
  }

  /**
   * Stage 1 of main.py. The body is decoded before the status is looked at,
   * so a body that is not JSON gives `CropUnavailable` whatever the status.
   * After the path, `yolo_json["file_id"]` is read unconditionally, and the
   * crop is read from `files`.
   */
  function DetectMain(reply: DetectorReply, files: map<string, Bytes>, outputDir: string): (r: Result<Detection, MainDetectError>)
    ensures r.Ok? ==> reply.Reply? && (reply.status == 200 || reply.status == 404)
    ensures r.Ok? ==> r.value.crop in files.Values
    ensures r.Err? && r.error.DetectorFailed? ==>
              reply.Reply? && reply.body.Some? && r.error.status == reply.status &&
              reply.status != 200 && reply.status != 404
    ensures reply.Reply? && reply.body.Some? && reply.status != 200 && reply.status != 404 ==>
              r == Err(DetectorFailed(reply.status))
    ensures r.Ok? ==> reply.body.Some? && reply.body.value.Obj? && "file_id" in reply.body.value.fields
    ensures r.Err? && reply.Reply? && (reply.status == 200 || reply.status == 404) ==> r.error == CropUnavailable
    ensures reply.Reply? && reply.status == 200 && reply.body.Some? && reply.body.value.Obj? ==>
              var m := reply.body.value.fields;
              (r.Ok? <==> "arquivo" in m && m["arquivo"].Str? && "file_id" in m && m["arquivo"].s in files) &&
              (r.Ok? ==> r.value == Detection(files[m["arquivo"].s], m["file_id"], Get(m, "classe")))
    ensures reply.Reply? && reply.status == 404 && reply.body.Some? && reply.body.value.Obj? ==>
              var m := reply.body.value.fields;
              (r.Ok? <==> "file_id" in m && m["file_id"].Str? && DerivedCropPath(outputDir, m["file_id"].s) in files) &&
              (r.Ok? ==> r.value == Detection(files[DerivedCropPath(outputDir, m["file_id"].s)], m["file_id"], Get(m, "classe")))
  {
    match reply
    case NoReply => Err(CropUnavailable)
    case Reply(status, body) =>
      if body.None? then Err(CropUnavailable)
      else if status != 200 && status != 404 then Err(DetectorFailed(status))
      else match body.value
        case Obj(m) =>
          (match MainCropPath(status, m, outputDir)
           case Some(Str(p)) =>
             if "file_id" in m && p in files then Ok(Detection(files[p], m["file_id"], Get(m, "classe")))
             else Err(CropUnavailable)
           case _ => Err(CropUnavailable))
        case _ => Err(CropUnavailable)
  }

  /** On 200 main.py reads the crop at `arquivo`. */
  lemma MainUsesArquivoOn200(files: map<string, Bytes>, outputDir: string, m: map<string, Json>, p: string)
    requires "arquivo" in m && m["arquivo"] == Str(p) && "file_id" in m && p in files
    ensures DetectMain(Reply(200, Some(Obj(m))), files, outputDir) ==
            Ok(Detection(files[p], m["file_id"], Get(m, "classe")))
  {
  }

  /** On 404 main.py ignores `arquivo` and reads the crop at the path derived from `file_id`. */
  lemma MainDerivesPathOn404(files: map<string, Bytes>, outputDir: string, m: map<string, Json>, id: string)
    requires "file_id" in m && m["file_id"] == Str(id) && DerivedCropPath(outputDir, id) in files
    ensures DetectMain(Reply(404, Some(Obj(m))), files, outputDir) ==
            Ok(Detection(files[DerivedCropPath(outputDir, id)], Str(id), Get(m, "classe")))
  {
  }

  /**
   * Every success of main.py's stage 1 read a dict carrying `file_id`: on 200
   * the crop at a string `arquivo` (never a path derived from `file_id`), on
   * 404 the crop at the path derived from a string `file_id`.
   */
  lemma MainPathPrecedence(files: map<string, Bytes>, outputDir: string, status: int, m: map<string, Json>)
    requires DetectMain(Reply(status, Some(Obj(m))), files, outputDir).Ok?
    ensures "file_id" in m
    ensures status == 200 ==>
              "arquivo" in m && m["arquivo"].Str? && m["arquivo"].s in files &&
              DetectMain(Reply(status, Some(Obj(m))), files, outputDir).value.crop == files[m["arquivo"].s]
    ensures status == 404 ==>
              m["file_id"].Str? && DerivedCropPath(outputDir, m["file_id"].s) in files &&
              DetectMain(Reply(status, Some(Obj(m))), files, outputDir).value.crop ==
              files[DerivedCropPath(outputDir, m["file_id"].s)]
  {
  }

  /** A 200 reply without `arquivo` fails in main.py, even when the crop derived from `file_id` is stored. */
  lemma MainNeedsArquivoOn200(files: map<string, Bytes>, outputDir: string, m: map<string, Json>)
    requires "arquivo" !in m
    ensures DetectMain(Reply(200, Some(Obj(m))), files, outputDir) == Err(CropUnavailable)
  {
  }

  // ---------------------------------------------------------------------
  // app/services/task.py
  // ---------------------------------------------------------------------

  /** task.py's stage-1 failures, all returned as `{"error": "Erro no YOLO: ..."}`. */
  datatype TaskDetectError =
    | DetectorUnreachable        // requests.post raised
    | DetectorHttpError(status: int)  // raise_for_status on a non-404 error status
    | ReplyNotJson               // yolo_resp.json() raised
    | MalformedReply             // a lookup on the reply raised (not a dict, non-string id or path)
    | NoCropPath                 // "Resposta do YOLO não continha caminho válido."
    | CropNotFound(path: string) // "Imagem recortada não encontrada: ..."

  /**
   * `crop_path` in task.py: `arquivo` when present, else the path derived
   * from `file_id`, else None; `None` (in Option) where building it raises.
   */
  function TaskCropPath(m: map<string, Json>, outputDir: string): (r: Option<Json>)
    ensures "arquivo" in m ==> r == Some(m["arquivo"])
    ensures "arquivo" !in m && "file_id" in m ==>
              (r.Some? <==> m["file_id"].Str?) && (r.Some? ==> r.value == Str(DerivedCropPath(outputDir, m["file_id"].s)))
    ensures "arquivo" !in m && "file_id" !in m ==> r == Some(Null)
  {
    if "arquivo" in m then Some(m["arquivo"])
    else if "file_id" in m then
      (if m["file_id"].Str? then Some(Str(DerivedCropPath(outputDir, m["file_id"].s))) else None)
    else Some(Null)
  }

  /** Stage 1 of task.py. */
  function DetectTask(reply: DetectorReply, files: map<string, Bytes>, outputDir: string): (r: Result<Detection, TaskDetectError>)
    ensures r.Ok? ==> r.value.crop in files.Values
    ensures r.Ok? ==> reply.Reply? && (reply.status == 404 || HttpOk(reply.status))
    ensures r.Err? && r.error.DetectorHttpError? ==>
              reply.Reply? && r.error.status == reply.status && reply.status != 404 && !HttpOk(reply.status)
    ensures reply.Reply? && reply.status != 404 && !HttpOk(reply.status) ==> r == Err(DetectorHttpError(reply.status))
  {
    match reply
    case NoReply => Err(DetectorUnreachable)
    case Reply(status, body) =>
      if status != 404 && !HttpOk(status) then Err(DetectorHttpError(status))
      else if body.None? then Err(ReplyNotJson)
      else match body.value
        case Obj(m) =>
          (match TaskCropPath(m, outputDir)
           case None => Err(MalformedReply)
           case Some(path) =>
             if !Truthy(path) then Err(NoCropPath)
             else match path
               case Str(p) =>
                 if p in files then Ok(Detection(files[p], Get(m, "file_id"), Get(m, "classe")))
                 else Err(CropNotFound(p))
               case _ => Err(MalformedReply))
        case other =>
          // `in` raises on a number, boolean or null; on a list or a string it
          // can succeed, and then subscripting with a string key raises.
          if In("arquivo", other) == Some(false) && In("file_id", other) == Some(false) then Err(NoCropPath)
          else Err(MalformedReply)
  }

  /** A 404 is not an error in task.py: with a usable path it proceeds to the crop like a 200. */
  lemma TaskTreats404AsOk(files: map<string, Bytes>, outputDir: string, body: Option<Json>)
    ensures DetectTask(Reply(404, body), files, outputDir) == DetectTask(Reply(200, body), files, outputDir)
  {
  }

  /** The crop path is `arquivo` when present, else the one derived from `file_id`. */
  lemma TaskPathPrecedence(files: map<string, Bytes>, outputDir: string, status: int, m: map<string, Json>)
    requires status == 404 || HttpOk(status)
    requires DetectTask(Reply(status, Some(Obj(m))), files, outputDir).Ok?
    ensures "arquivo" in m ==>
              m["arquivo"].Str? && DetectTask(Reply(status, Some(Obj(m))), files, outputDir).value.crop == files[m["arquivo"].s]
    ensures "arquivo" !in m ==>
              "file_id" in m && m["file_id"].Str? &&
              DetectTask(Reply(status, Some(Obj(m))), files, outputDir).value.crop ==
                files[DerivedCropPath(outputDir, m["file_id"].s)]
  {
  }

  /** Without `arquivo` and `file_id` there is no crop path, and the job fails. */
  lemma TaskNeedsAPath(files: map<string, Bytes>, outputDir: string, status: int, m: map<string, Json>)
    requires status == 404 || HttpOk(status)
    requires "arquivo" !in m && "file_id" !in m
    ensures DetectTask(Reply(status, Some(Obj(m))), files, outputDir) == Err(NoCropPath)
  {
  }

  /** A known path whose file does not exist is an error. */
  lemma TaskMissingCrop(files: map<string, Bytes>, outputDir: string, status: int, m: map<string, Json>, p: string)
    requires status == 404 || HttpOk(status)
    requires TaskCropPath(m, outputDir) == Some(Str(p)) && p != "" && p !in files
    ensures DetectTask(Reply(status, Some(Obj(m))), files, outputDir) == Err(CropNotFound(p))
  {
  }

  /** For any output directory, a reply with a present, non-empty `arquivo` whose file exists proceeds with that crop. */
  lemma TaskUsesArquivo(files: map<string, Bytes>, outputDir: string, status: int, m: map<string, Json>, p: string)
    requires status == 404 || HttpOk(status)
    requires "arquivo" in m && m["arquivo"] == Str(p) && p != "" && p in files
    ensures DetectTask(Reply(status, Some(Obj(m))), files, outputDir) ==
            Ok(Detection(files[p], Get(m, "file_id"), Get(m, "classe")))
  {
  }

  /** The derived path is never empty: `<file_id>.jpg` alone already is not. */
  lemma DerivedCropPathNonEmpty(outputDir: string, id: string)
    ensures DerivedCropPath(outputDir, id) != ""
  {
    assert EndsWith(StemPath(outputDir, id, ".jpg"), id + ".jpg");
  }

  /**
   * For any output directory, a reply without `arquivo` whose string `file_id`
   * names a stored crop at the derived path proceeds with that crop, that id
   * and the reply's class.
   */
  lemma TaskDerivesFromFileId(files: map<string, Bytes>, outputDir: string, status: int, m: map<string, Json>, id: string)
    requires status == 404 || HttpOk(status)
    requires "arquivo" !in m && "file_id" in m && m["file_id"] == Str(id)
    requires DerivedCropPath(outputDir, id) in files
    ensures DetectTask(Reply(status, Some(Obj(m))), files, outputDir) ==
            Ok(Detection(files[DerivedCropPath(outputDir, id)], Str(id), Get(m, "classe")))
  {
    var path := DerivedCropPath(outputDir, id);
    DerivedCropPathNonEmpty(outputDir, id);
    assert TaskCropPath(m, outputDir) == Some(Str(path));
    assert Truthy(Str(path));
  }

  /** A JSON list reply holds neither key, so task.py finds no crop path. */
  lemma TaskListReplyHasNoPath(files: map<string, Bytes>, outputDir: string, status: int, xs: seq<Json>)
    requires status == 404 || HttpOk(status)
    requires Str("arquivo") !in xs && Str("file_id") !in xs
    ensures DetectTask(Reply(status, Some(Arr(xs))), files, outputDir) == Err(NoCropPath)
  {
  }

  /** An example output directory: main.py's default `YOLO_OUTPUT_DIR`; task.py receives its directory as an argument. */
  const DefaultOutputDir := "/brplates/runs"

  /**
   * The round trip of a detector reply `{"file_id": "abc", "classe": "car"}`
   * with the crop stored at the derived path under the example directory.
   */
  lemma TaskDerivedRoundTrip(crop: Bytes)
    ensures var m := map["file_id" := Str("abc"), "classe" := Str("car")];
            var files := map["/brplates/runs/abc/abc.jpg" := crop];
            DetectTask(Reply(200, Some(Obj(m))), files, DefaultOutputDir) == Ok(Detection(crop, Str("abc"), Str("car")))
  {
    var m := map["file_id" := Str("abc"), "classe" := Str("car")];
    assert "arquivo" !in m by {
      assert |"arquivo"| == 7 && |"file_id"| == 7 && |"classe"| == 6;
      assert "arquivo"[0] != "file_id"[0];
    }
    assert PlainSegment("abc") by {
      assert "abc"[0] == 'a' && "abc"[|"abc"| - 1] == 'c';
    }
    assert !EndsWith(DefaultOutputDir, "/") by { assert DefaultOutputDir[|DefaultOutputDir| - 1] == 's'; }
    assert DefaultOutputDir + "/" + "abc" + "/" + "abc" + ".jpg" == "/brplates/runs/abc/abc.jpg";
    assert TaskCropPath(m, DefaultOutputDir) == Some(Str("/brplates/runs/abc/abc.jpg"));
  }

  /**
   * A `file_id` that is an absolute path makes `<file_id>.jpg` absolute too, so the
   * derived path is that file alone, outside the output directory.
   */
  lemma AbsoluteFileIdEscapesOutputDir(outputDir: string)
    ensures DerivedCropPath(outputDir, "/x") == "/x.jpg"
  {
    assert "/x" + ".jpg" == "/x.jpg";
    assert StartsWith("/x.jpg", "/") by { assert "/x.jpg"[..1] == "/"; }
  }
}
