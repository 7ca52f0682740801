/**
 * main.py's `processar_placa`: content-type guard, detector stage, OCR
 * fallback chain, result file and the `{placa, alternativas}` projection.
 */
module MainPipeline {
  import opened Options
  import opened PyValues
  import opened OcrNormalise
  import opened OcrChain
  import opened Detector
  import opened ResultFiles

  /** What the route returns: each error response, or the 200 body. */
  datatype Response =
    | NotAnImage                        // 400 "Arquivo enviado não é uma imagem válida."
    | DetectionError(cause: MainDetectError)  // 500 "YOLO falhou" / "Falha ao obter imagem da placa"
    | NoPlate                           // 404 "Nenhuma placa detectada"
    | SaveFailed                        // 500 "Erro ao salvar resultado em disco"
    | ProjectionFailed                  // 500 "Erro ao processar resultado"
    | Plate(placa: Json, alternativas: seq<Json>)

  // ---------------------------------------------------------------------
  // Stage 4: the projection
  // ---------------------------------------------------------------------

  datatype Projection = Projection(placa: Json, alternativas: seq<Json>)

  /**
   * What `for c in candidates` iterates over; `None` where the loop body
   * cannot run without raising: iterating a number, bool or None raises, and
   * a non-empty string or dict yields strings, on which `c["plate"]` raises.
   */
  function CandidateItems(candidates: Json): (r: Option<seq<Json>>)
    ensures candidates.Arr? ==> r == Some(candidates.items)
    ensures !candidates.Arr? ==> (r.Some? <==> (candidates.Str? || candidates.Obj?) && !Truthy(candidates))
    ensures !candidates.Arr? && r.Some? ==> r.value == []
  {
    match candidates
    case Arr(xs) => Some(xs)
    case Str(s) => if s == "" then Some([]) else None
    case Obj(m) => if m == map[] then Some([]) else None
    case _ => None
  }

  /** Whether the comprehension can read `c["plate"]` of every item. */
  predicate AllHavePlate(items: seq<Json>) {
    forall i :: 0 <= i < |items| ==> items[i].Obj? && "plate" in items[i].fields
  }

  /** `[c["plate"] for c in items if c["plate"] != placa]`; `None` when some item has no plate. */
  function Alternatives(items: seq<Json>, placa: Json): (alts: Option<seq<Json>>)
    ensures alts.Some? <==> AllHavePlate(items)
    ensures alts.Some? ==> |alts.value| <= |items|
    ensures alts.Some? ==> forall x :: x in alts.value <==>
              exists i :: 0 <= i < |items| && items[i].fields["plate"] == x && x != placa
  {
    if items == [] then Some([])
    else match items[0]
      case Obj(c) =>
        if "plate" !in c then None
        else
          (match Alternatives(items[1..], placa)
           case None => None
           case Some(rest) =>
             assert forall i :: 1 <= i < |items| ==> items[1..][i - 1] == items[i];
             Some(if c["plate"] != placa then [c["plate"]] + rest else rest))
      case _ => None
  }

  /**
   * Stage 4: `top_result = raw_result["results"][0]`, `placa = top_result["plate"]`,
   * alternatives from `top_result["candidates"]` when that key is present;
   * `None` when any of it raises.
   */
  function ProjectMain(raw: Canonical): (p: Option<Projection>)
    ensures p.Some? ==> raw.results.Arr? && raw.results.items != [] && raw.results.items[0].Obj?
    ensures p.Some? <==>
              raw.results.Arr? && raw.results.items != [] && raw.results.items[0].Obj? &&
              "plate" in raw.results.items[0].fields &&
              ("candidates" in raw.results.items[0].fields ==>
                 CandidateItems(raw.results.items[0].fields["candidates"]).Some? &&
                 AllHavePlate(CandidateItems(raw.results.items[0].fields["candidates"]).value))
    ensures p.Some? ==> var top := raw.results.items[0].fields;
              "plate" in top && p.value.placa == top["plate"] &&
              ("candidates" !in top ==> p.value.alternativas == []) &&
              ("candidates" in top ==>
                 p.value.alternativas == Alternatives(CandidateItems(top["candidates"]).value, top["plate"]).value)
  {
    match raw.results
    case Arr(xs) =>
      if xs == [] then None
      else
        (match xs[0]
         case Obj(top) =>
           if "plate" !in top then None
           else if "candidates" !in top then Some(Projection(top["plate"], []))
           else
             (match CandidateItems(top["candidates"])
              case None => None
              case Some(items) =>
                (match Alternatives(items, top["plate"])
                 case None => None
                 case Some(alts) => Some(Projection(top["plate"], alts))))
         case _ => None)
    case _ => None
  }

  /** Filtering distributes over concatenation: the alternatives keep the candidates' order. */
  lemma {:induction false} AlternativesConcat(a: seq<Json>, b: seq<Json>, placa: Json)
    requires AllHavePlate(a) && AllHavePlate(b)
    ensures Alternatives(a + b, placa).Some?
    ensures Alternatives(a + b, placa).value == Alternatives(a, placa).value + Alternatives(b, placa).value
  {
    if a == [] {
      assert a + b == b;
    } else {
      assert (a + b)[1..] == a[1..] + b;
      assert (a + b)[0] == a[0];
      AlternativesConcat(a[1..], b, placa);
    }
  }

  /** One candidate contributes its plate unless that plate is the primary one. */
  lemma AlternativesSingle(c: map<string, Json>, placa: Json)
    requires "plate" in c
    ensures Alternatives([Obj(c)], placa) == Some(if c["plate"] != placa then [c["plate"]] else [])
  {
    assert [Obj(c)][1..] == [];
    assert Alternatives([], placa) == Some([]);
    assert [c["plate"]] + [] == [c["plate"]];
  }

  /**
   * The scenario of plate "ABC1234" whose candidates repeat it and add
   * "ABC1Z34": the alternatives are just ["ABC1Z34"].
   */
  lemma PrimaryPlateIsFilteredOut()
    ensures var c1 := map["plate" := Str("ABC1234")];
            var c2 := map["plate" := Str("ABC1Z34")];
            Alternatives([Obj(c1), Obj(c2)], Str("ABC1234")) == Some([Str("ABC1Z34")])
  {
    var c1 := map["plate" := Str("ABC1234")];
    var c2 := map["plate" := Str("ABC1Z34")];
    assert Str("ABC1Z34") != Str("ABC1234") by {
      assert "ABC1Z34"[4] != "ABC1234"[4];
    }
    AlternativesConcat([Obj(c1)], [Obj(c2)], Str("ABC1234"));
    AlternativesSingle(c1, Str("ABC1234"));
    AlternativesSingle(c2, Str("ABC1234"));
    assert [Obj(c1)] + [Obj(c2)] == [Obj(c1), Obj(c2)];
  }

  // ---------------------------------------------------------------------
  // The route
  // ---------------------------------------------------------------------

  /** The 200 body, or the 500 of stage 4. */
  function Projected(raw: Canonical): (r: Response)
    ensures r.Plate? || r == ProjectionFailed
    ensures r.Plate? <==> ProjectMain(raw).Some?
    ensures r.Plate? ==> r.placa == ProjectMain(raw).value.placa && r.alternativas == ProjectMain(raw).value.alternativas
  {
    match ProjectMain(raw)
    case Some(p) => Plate(p.placa, p.alternativas)
    case None => ProjectionFailed
  }

  /**
   * `processar_placa`. The image bytes only reach the detector, whose reply
   * is `detector`; `files` is the crop store, `parse` is `json.loads`,
   * `answer` the OCR backends and `writeOk` whether writing the result file
   * succeeds. `saved` is the result file written, if any.
   */
  method ProcessPlate(contentType: string, detector: DetectorReply, files: map<string, Bytes>, outputDir: string,
                      parse: string -> Option<Json>, answer: Oracle, writeOk: bool)
    returns (resp: Response, saved: Option<SavedFile>)
    ensures !StartsWith(contentType, "image/") ==> resp == NotAnImage && saved.None?
    ensures StartsWith(contentType, "image/") && DetectMain(detector, files, outputDir).Err? ==>
              resp == DetectionError(DetectMain(detector, files, outputDir).error) && saved.None?
    ensures StartsWith(contentType, "image/") && DetectMain(detector, files, outputDir).Ok? ==>
              var d := DetectMain(detector, files, outputDir).value;
              var w := Winner(OutcomesMain(parse, answer, d.classe));
              (w.None? ==> resp == NoPlate && saved.None?) &&
              (w.Some? && !Truthy(d.fileId) ==> resp == Projected(w.value) && saved.None?) &&
              (w.Some? && Truthy(d.fileId) && !(d.fileId.Str? && writeOk) ==> resp == SaveFailed && saved.None?) &&
              (w.Some? && Truthy(d.fileId) && d.fileId.Str? && writeOk ==>
                 resp == Projected(w.value) && saved == Some(SavedFile(ResultPath(outputDir, d.fileId.s), w.value)))
    ensures resp.Plate? ==> saved.None? || saved.value.content.placa == resp.placa
  {
    saved := None;
    if !StartsWith(contentType, "image/") {
      return NotAnImage, None;
    }

    // Stage 1: detector and crop.
    var detection := DetectMain(detector, files, outputDir);
    if detection.Err? {
      return DetectionError(detection.error), None;
    }
    var fileId := detection.value.fileId;
    var classe := detection.value.classe;

    // Stage 2: OCR fallback chain.
    var raw := RunChainMain(parse, answer, classe);
    if !Truthy(raw.placa) && !Truthy(raw.results) {
      return NoPlate, None;
    }

    // Stage 3: result file; any failure here is a 500.
    if Truthy(fileId) {
      if !fileId.Str? || !writeOk {
        return SaveFailed, None;
      }
      saved := Some(SavedFile(ResultPath(outputDir, fileId.s), raw));
    }

    // Stage 4: projection.
    resp := Projected(raw);
  }
}
