/**
 * The `/processar-placa` route of app/api/v1/endpoints/plates.py: the
 * content-type guard, the not-found decision and the `alternativas`
 * projection, over the pydantic shapes of app/schemas/plate.py.
 */
module PlatesEndpoint {
  import opened Options
  import opened PyValues

  /** `OCRResultItem`: a plate and, optionally, a list of candidate dicts. */
  datatype OcrResultItem = OcrResultItem(plate: string, candidates: Option<seq<map<string, Json>>>)

  /** `PlateOCRRawResult`. */
  datatype PlateOcrRawResult = PlateOcrRawResult(placa: Option<string>, results: seq<OcrResultItem>)

  /** What the plate service call does: produce a result, or raise a RuntimeError or another exception. */
  datatype ServiceOutcome = Produced(raw: PlateOcrRawResult) | RuntimeFailure | OtherFailure

  /** The responses of the route. */
  datatype Reply =
    | BadRequest                                  // 400, before any processing
    | NotFound                                    // 404 "Nenhuma placa detectada ou lida ..."
    | InternalError(unexpected: bool)             // 500: pipeline RuntimeError, or any other exception
    | Processed(placa: string, alternativas: seq<Json>)

  /** What the body of the `try` block does before the `except` clauses see it. */
  datatype BodyOutcome = RaisesNotFound | RaisesIndexError | Projects(placa: string, alternativas: seq<Json>)

  /** Whether `c.get("plate")` survives the filter of the comprehension. */
  predicate KeptCandidate(c: map<string, Json>, placa: string) {
    Truthy(Get(c, "plate")) && Get(c, "plate") != Str(placa)
  }

  /** `[c.get("plate") for c in candidates if c.get("plate") and c.get("plate") != placa]`. */
  function Alternatives(candidates: seq<map<string, Json>>, placa: string): (alts: seq<Json>)
    ensures |alts| <= |candidates|
    ensures forall k :: 0 <= k < |alts| ==> Truthy(alts[k]) && alts[k] != Str(placa)
    ensures forall x :: x in alts <==> exists i :: 0 <= i < |candidates| && KeptCandidate(candidates[i], placa) &&
                                                 Get(candidates[i], "plate") == x
  {
    if candidates == [] then []
    else
      var rest := Alternatives(candidates[1..], placa);
      assert forall i :: 1 <= i < |candidates| ==> candidates[1..][i - 1] == candidates[i];
      if KeptCandidate(candidates[0], placa) then [Get(candidates[0], "plate")] + rest else rest
  }

  /** The alternatives keep the candidates' order: the filter distributes over concatenation. */
  lemma {:induction false} AlternativesConcat(a: seq<map<string, Json>>, b: seq<map<string, Json>>, placa: string)
    ensures Alternatives(a + b, placa) == Alternatives(a, placa) + Alternatives(b, placa)
  {
    if a == [] {
      assert a + b == b;
    } else {
      assert (a + b)[1..] == a[1..] + b;
      assert (a + b)[0] == a[0];
      AlternativesConcat(a[1..], b, placa);
    }
  }

  /** When no candidate is filtered out, the alternatives are all candidate plates, in order. */
  lemma {:induction false} AlternativesKeepAll(candidates: seq<map<string, Json>>, placa: string)
    requires forall i :: 0 <= i < |candidates| ==> KeptCandidate(candidates[i], placa)
    ensures |Alternatives(candidates, placa)| == |candidates|
    ensures forall i :: 0 <= i < |candidates| ==> Alternatives(candidates, placa)[i] == Get(candidates[i], "plate")
  {
    if candidates != [] {
      AlternativesKeepAll(candidates[1..], placa);
    }
  }

  /** `placa = top_result.plate`; alternatives only when `top_result.candidates` is a non-empty list. */
  function Project(top: OcrResultItem): (out: BodyOutcome)
    ensures out.Projects? && out.placa == top.plate
    ensures top.candidates.None? || top.candidates.value == [] ==> out.alternativas == []
    ensures top.candidates.Some? && top.candidates.value != [] ==>
              out.alternativas == Alternatives(top.candidates.value, top.plate)
  {
    if top.candidates.Some? && top.candidates.value != [] then
      Projects(top.plate, Alternatives(top.candidates.value, top.plate))
    else
      Projects(top.plate, [])
  }

  /** A falsy `placa` together with an empty `results` list. */
  predicate NothingRead(raw: PlateOcrRawResult) {
    (raw.placa.None? || raw.placa.value == "") && raw.results == []
  }

  /** The body of the `try` block, up to the two exceptions it can raise itself. */
  function Body(raw: PlateOcrRawResult): (out: BodyOutcome)
    ensures out.RaisesNotFound? <==> NothingRead(raw)
    ensures out.RaisesIndexError? <==> !NothingRead(raw) && raw.results == []
    ensures out.Projects? ==> out == Project(raw.results[0])
  {
    if NothingRead(raw) then RaisesNotFound
    else if raw.results == [] then RaisesIndexError
    else Project(raw.results[0])
  }

  /**
   * The route as written. The HTTPException(404) is raised inside the `try`,
   * and `except Exception` catches it: the client gets a 500.
   */
  function HandleAsWritten(contentType: string, service: ServiceOutcome): (r: Reply)
    ensures !StartsWith(contentType, "image/") ==> r == BadRequest
    ensures r != NotFound
    ensures StartsWith(contentType, "image/") && service.Produced? && NothingRead(service.raw) ==> r == InternalError(true)
    ensures StartsWith(contentType, "image/") && service.Produced? && service.raw.results != [] ==>
              r == Processed(Project(service.raw.results[0]).placa, Project(service.raw.results[0]).alternativas)
  {
    if !StartsWith(contentType, "image/") then BadRequest
    else match service
      case RuntimeFailure => InternalError(false)
      case OtherFailure => InternalError(true)
      case Produced(raw) =>
        match Body(raw)
        case RaisesNotFound => InternalError(true)
        case RaisesIndexError => InternalError(true)
        case Projects(placa, alts) => Processed(placa, alts)
  }

  /** The route as intended: the 404 reaches the client. */
  function Handle(contentType: string, service: ServiceOutcome): (r: Reply)
    ensures !StartsWith(contentType, "image/") ==> r == BadRequest
    ensures r == NotFound <==> StartsWith(contentType, "image/") && service.Produced? && NothingRead(service.raw)
    ensures r.Processed? ==> service.Produced? && service.raw.results != [] && r.placa == service.raw.results[0].plate
    ensures StartsWith(contentType, "image/") && service.Produced? && service.raw.results != [] ==>
              r == Processed(Project(service.raw.results[0]).placa, Project(service.raw.results[0]).alternativas)
    ensures StartsWith(contentType, "image/") && service.RuntimeFailure? ==> r == InternalError(false)
    ensures StartsWith(contentType, "image/") && service.OtherFailure? ==> r == InternalError(true)
    ensures StartsWith(contentType, "image/") && service.Produced? && !NothingRead(service.raw) && service.raw.results == [] ==>
              r == InternalError(true)
  {
    if !StartsWith(contentType, "image/") then BadRequest
    else match service
      case RuntimeFailure => InternalError(false)
      case OtherFailure => InternalError(true)
      case Produced(raw) =>
        match Body(raw)
        case RaisesNotFound => NotFound
        case RaisesIndexError => InternalError(true)
        case Projects(placa, alts) => Processed(placa, alts)
  }

  /**
   * The route on plate "ABC1234" whose candidates are "ABC1234" and "ABC1Z34":
   * the reply is that plate with the single alternative "ABC1Z34".
   */
  lemma HandleFiltersPrimaryPlate()
    ensures var c1 := map["plate" := Str("ABC1234")];
            var c2 := map["plate" := Str("ABC1Z34")];
            var raw := PlateOcrRawResult(None, [OcrResultItem("ABC1234", Some([c1, c2]))]);
            Handle("image/png", Produced(raw)) == Processed("ABC1234", [Str("ABC1Z34")])
  {
    var c1 := map["plate" := Str("ABC1234")];
    var c2 := map["plate" := Str("ABC1Z34")];
    assert "ABC1Z34" != "ABC1234" by {
      assert "ABC1Z34"[4] != "ABC1234"[4];
    }
    assert StartsWith("image/png", "image/");
    AlternativesConcat([c1], [c2], "ABC1234");
    assert [c1] + [c2] == [c1, c2];
    assert Alternatives([c1], "ABC1234") == [] by {
      assert [c1][1..] == [];
    }
    assert Alternatives([c2], "ABC1234") == [Str("ABC1Z34")] by {
      assert [c2][1..] == [];
    }
  }

  /** As written, an image with nothing read comes back as an unexpected 500. */
  lemma AsWrittenEmptyResultIs500()
    ensures HandleAsWritten("image/jpeg", Produced(PlateOcrRawResult(None, []))) == InternalError(true)
  {
  }

  /** The two differ only on the not-found case. */
  lemma HandleDiffersOnlyOnNotFound(contentType: string, service: ServiceOutcome)
    ensures Handle(contentType, service) != HandleAsWritten(contentType, service) <==>
              Handle(contentType, service) == NotFound
  {
  }
}
