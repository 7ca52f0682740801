/**
 * The result file both pipelines write after a successful chain:
 * `<output_dir>/<file_id>/<file_id>.txt`, holding the chain's canonical result,
 * next to the crop the detector pointed at.
 */
module ResultFiles {
  import opened PyValues
  import opened OcrNormalise
  import opened Detector

  /** Where the OCR result of a detection is dumped: `os.path.join(output_dir, file_id, f"{file_id}.txt")`. */
  function ResultPath(outputDir: string, fileId: string): string {
    StemPath(outputDir, fileId, ".txt")
  }

  /** A result file written by a pipeline: its path and the canonical result dumped into it. */
  datatype SavedFile = SavedFile(path: string, content: Canonical)

  /** The result file sits beside the crop: the two paths differ only in their last four characters, `.jpg` against `.txt`. */
  lemma ResultFileSharesCropStem(outputDir: string, fileId: string)
    ensures |DerivedCropPath(outputDir, fileId)| == |ResultPath(outputDir, fileId)| >= 4
    ensures DerivedCropPath(outputDir, fileId)[..|DerivedCropPath(outputDir, fileId)| - 4] ==
            ResultPath(outputDir, fileId)[..|ResultPath(outputDir, fileId)| - 4]
  {
    var stem := JoinTwo(outputDir, fileId);
    LeafKeepsLead(fileId, ".jpg");
    LeafKeepsLead(fileId, ".txt");
    var p :=
      if StartsWith(fileId, "/") then fileId
      else if stem == "" || EndsWith(stem, "/") then stem + fileId
      else stem + "/" + fileId;
    assert JoinTwo(stem, fileId + ".jpg") == p + ".jpg";
    assert JoinTwo(stem, fileId + ".txt") == p + ".txt";
    assert DerivedCropPath(outputDir, fileId) == p + ".jpg";
    assert ResultPath(outputDir, fileId) == p + ".txt";
    assert (p + ".jpg")[..|p|] == p;
    assert (p + ".txt")[..|p|] == p;
  }
}
