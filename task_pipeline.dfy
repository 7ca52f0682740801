/**
 * app/services/task.py's `process_plate_image_task`: detector stage, OCR
 * fallback chain and the advisory result-file write.
 */
module TaskPipeline {
  import opened Options
  import opened PyValues
  import opened OcrNormalise
  import opened OcrChain
  import opened Detector
  import opened ResultFiles

  /** The dict the job returns: `{"error": "Erro no YOLO: ..."}` or the canonical result. */
  datatype TaskResult = TaskFailed(error: TaskDetectError) | TaskDone(result: Canonical)

  /** The value the chain leaves: the first non-empty result, else exactly the empty one. */
  function ChainValue(parse: string -> Option<Json>, answer: Oracle, classe: Json): (c: Canonical)
    ensures WellFormed(c)
    ensures NonEmpty(c) || c == Empty
  {
    var w := Winner(OutcomesTask(parse, answer, classe));
    if w.Some? then w.value else Empty
  }

  /**
   * `process_plate_image_task`. `detector` is the detector's reply, `files`
   * the crop store, `parse` is `json.loads`, `answer` the OCR backends and
   * `writeOk` whether `os.makedirs` and writing the file succeed. The write
   * is advisory: its failure is printed and the result is returned as it is.
   */
  method ProcessPlateTask(detector: DetectorReply, files: map<string, Bytes>, outputDir: string,
                          parse: string -> Option<Json>, answer: Oracle, writeOk: bool)
    returns (result: TaskResult, saved: Option<SavedFile>)
    ensures DetectTask(detector, files, outputDir).Err? ==>
              result == TaskFailed(DetectTask(detector, files, outputDir).error) && saved.None?
    ensures DetectTask(detector, files, outputDir).Ok? ==>
              var d := DetectTask(detector, files, outputDir).value;
              var c := ChainValue(parse, answer, d.classe);
              result == TaskDone(c) &&
              saved == (if Truthy(d.fileId) && d.fileId.Str? && Truthy(c.placa) && writeOk
                        then Some(SavedFile(ResultPath(outputDir, d.fileId.s), c)) else None)
  {
    saved := None;

    // Stage 1: detector and crop.
    var detection := DetectTask(detector, files, outputDir);
    if detection.Err? {
      return TaskFailed(detection.error), None;
    }
    var fileId := detection.value.fileId;
    var classe := detection.value.classe;

    // Stage 2: OCR fallback chain.
    var raw := RunChainTask(parse, answer, classe);
    if !Truthy(raw.placa) && !Truthy(raw.results) {
      return TaskDone(Empty), None;
    }

    // Stage 3: advisory write; a non-string id makes os.path.join raise, which is caught too.
    if Truthy(fileId) && Truthy(raw.placa) {
      if fileId.Str? && writeOk {
        saved := Some(SavedFile(ResultPath(outputDir, fileId.s), raw));
      }
    }
    result := TaskDone(raw);
  }

  /** With every backend answering an error status, the job succeeds with exactly the empty result. */
  lemma AllBackendsFailingGivesEmpty(parse: string -> Option<Json>, answer: Oracle, classe: Json)
    requires forall i :: 0 <= i < 4 ==>
               answer(i, Attempts(classe)[i]).Answered? && !HttpOk(answer(i, Attempts(classe)[i]).status)
    ensures ChainValue(parse, answer, classe) == Empty
  {
    AllErrorStatusesGiveEmptyTask(parse, answer, classe);
  }
}
