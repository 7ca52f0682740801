/**
 * Normalisation of an OCR backend's reply into the canonical
 * `{"placa": ..., "results": ...}` dict (`padronizar_resultado_ocr_bruto`).
 * The function exists in two copies, main.py and app/services/task.py; they
 * differ only in how the first item's plate is read, so both are one
 * definition here, selected by `Copy`.
 */
module OcrNormalise {
  import opened Options
  import opened PyValues

  /** main.py reads the lead plate with `.get("plate")`; task.py with `["plate"]`. */
  datatype Copy = MainCopy | TaskCopy

  /** The canonical dict; `Null` in `placa` stands for Python's None. */
  datatype Canonical = Canonical(placa: Json, results: Json)

  /** `{"placa": None, "results": []}`. */
  const Empty: Canonical := Canonical(Null, Arr([]))

  /** The fallback chain's stop test: a truthy `placa` or a truthy `results`. */
  predicate NonEmpty(c: Canonical) {
    Truthy(c.placa) || Truthy(c.results)
  }

  /**
   * The shape of every normalised value: when `results` is truthy it is a list
   * whose first item is a dict and `placa` is that item's plate; otherwise
   * `placa` is None.
   */
  predicate WellFormed(c: Canonical) {
    if Truthy(c.results) then
      c.results.Arr? && c.results.items[0].Obj? && c.placa == Get(c.results.items[0].fields, "plate")
    else
      c.placa == Null
  }

  /** What the normaliser does: return a canonical value, or let an exception escape. */
  datatype Outcome = Returned(result: Canonical) | Raised

  /** The reply shapes, tried in the source's order: `resultado` before `results`. */
  datatype Shape =
    | LegacyWrapper(resultado: Json)  // {"resultado": <json string>, ...}
    | DirectList(results: Json)       // {"results": [...], ...}
    | Unrecognised                    // any other dict, or not a dict at all

  function ShapeOf(raw: Json): (sh: Shape)
    ensures sh.LegacyWrapper? <==> raw.Obj? && "resultado" in raw.fields
    ensures sh.DirectList? <==> raw.Obj? && "resultado" !in raw.fields && "results" in raw.fields
    ensures sh.LegacyWrapper? ==> sh.resultado == raw.fields["resultado"]
    ensures sh.DirectList? ==> sh.results == raw.fields["results"]
  {
    match raw
    case Obj(m) =>
      if "resultado" in m then LegacyWrapper(m["resultado"])
      else if "results" in m then DirectList(m["results"])
      else Unrecognised
    case _ => Unrecognised
  }

  /**
   * `results[0].get("plate") if results else None` (main.py) or
   * `results[0]["plate"] if results else None` (task.py); `None` when the
   * expression raises: a truthy `results` that is not a list, a first item
   * that is not a dict, or (task.py only) a first dict without "plate".
   */
  function LeadPlate(copy: Copy, results: Json): (r: Option<Json>)
    ensures !Truthy(results) ==> r == Some(Null)
    ensures Truthy(results) && r.Some? ==>
              results.Arr? && results.items[0].Obj? && r.value == Get(results.items[0].fields, "plate")
    ensures Truthy(results) && results.Arr? && results.items[0].Obj? ==>
              (r.None? <==> copy == TaskCopy && "plate" !in results.items[0].fields)
  {
    if !Truthy(results) then Some(Null)
    else match results
      case Arr(xs) =>
        (match xs[0]
         case Obj(item) =>
           if copy == TaskCopy && "plate" !in item then None else Some(Get(item, "plate"))
         case _ => None)
      case _ => None
  }

  /** `{"placa": <lead plate>, "results": results}`, with `results` kept as it is. */
  function FromResults(copy: Copy, results: Json): (o: Outcome)
    ensures o.Returned? <==> LeadPlate(copy, results).Some?
    ensures o.Returned? ==> WellFormed(o.result) && o.result.results == results
  {
    match LeadPlate(copy, results)
    case Some(p) => Returned(Canonical(p, results))
    case None => Raised
  }

  /**
   * The normaliser. `parse` is `json.loads` (None: JSONDecodeError). In the
   * wrapper case a non-string `resultado` makes `json.loads` raise TypeError,
   * and a parsed value that is not a dict has no `.get`; neither is caught.
   */
  function Normalise(copy: Copy, parse: string -> Option<Json>, raw: Json): (o: Outcome)
    ensures o.Returned? ==> WellFormed(o.result)
    ensures ShapeOf(raw).Unrecognised? ==> o == Returned(Empty)
    ensures o.Returned? && Truthy(o.result.results) ==>
              (ShapeOf(raw).DirectList? && o.result.results == ShapeOf(raw).results) ||
              (ShapeOf(raw).LegacyWrapper? && ShapeOf(raw).resultado.Str?)
  {
    match ShapeOf(raw)
    case LegacyWrapper(text) =>
      (match text
       case Str(t) =>
         (match parse(t)
          case None => Returned(Empty)
          case Some(Obj(parsed)) => FromResults(copy, if "results" in parsed then parsed["results"] else Arr([]))
          case Some(_) => Raised)
       case _ => Raised)
    case DirectList(results) => FromResults(copy, results)
    case Unrecognised => Returned(Empty)
  }

  /** The canonical value as the dict the pipeline passes on. */
  function AsJson(c: Canonical): Json {
    Obj(map["placa" := c.placa, "results" := c.results])
  }

  /** task.py's copy raises on exactly these values: a truthy list whose first dict has no "plate". */
  predicate LacksLeadPlate(c: Canonical)
    requires WellFormed(c)
  {
    Truthy(c.results) && "plate" !in c.results.items[0].fields
  }

  // ---------------------------------------------------------------------
  // Properties of the decoder
  // ---------------------------------------------------------------------

  /** A wrapper whose string parses to a dict passes that dict's `results` through unchanged. */
  lemma WrapperKeepsInnerResults(copy: Copy, parse: string -> Option<Json>, raw: Json, t: string, inner: map<string, Json>)
    requires raw.Obj? && "resultado" in raw.fields && raw.fields["resultado"] == Str(t)
    requires parse(t) == Some(Obj(inner)) && "results" in inner
    requires LeadPlate(copy, inner["results"]).Some?
    ensures Normalise(copy, parse, raw) == Returned(Canonical(LeadPlate(copy, inner["results"]).value, inner["results"]))
    ensures Truthy(inner["results"]) ==>
              Normalise(copy, parse, raw).result.placa == Get(inner["results"].items[0].fields, "plate")
  {
  }

  /** A wrapper whose string does not parse, or parses to a dict without `results`, normalises to the empty value. */
  lemma WrapperWithoutResultsIsEmpty(copy: Copy, parse: string -> Option<Json>, raw: Json, t: string)
    requires raw.Obj? && "resultado" in raw.fields && raw.fields["resultado"] == Str(t)
    requires parse(t).None? || (parse(t).value.Obj? && "results" !in parse(t).value.fields)
    ensures Normalise(copy, parse, raw) == Returned(Empty)
  {
  }

  /** A direct reply normalises to its own list; an empty list gives `placa = None`. */
  lemma DirectListKept(copy: Copy, parse: string -> Option<Json>, m: map<string, Json>, xs: seq<Json>)
    requires "resultado" !in m && "results" in m && m["results"] == Arr(xs)
    requires xs != [] ==> xs[0].Obj? && (copy == TaskCopy ==> "plate" in xs[0].fields)
    ensures Normalise(copy, parse, Obj(m)).Returned?
    ensures Normalise(copy, parse, Obj(m)).result.results == Arr(xs)
    ensures xs == [] ==> Normalise(copy, parse, Obj(m)).result.placa == Null
    ensures xs != [] ==> Normalise(copy, parse, Obj(m)).result.placa == Get(xs[0].fields, "plate")
  {
  }

  /** `resultado` takes precedence over `results` when both keys are present. */
  lemma WrapperTakesPrecedence(copy: Copy, parse: string -> Option<Json>, m: map<string, Json>)
    requires "resultado" in m && "results" in m
    ensures Normalise(copy, parse, Obj(m)) == Normalise(copy, parse, Obj(map["resultado" := m["resultado"]]))
  {
  }

  /**
   * The two copies agree on every reply task.py's copy accepts; they part
   * only where the first result is a dict without "plate": main.py then
   * returns `placa = None` with the list, task.py raises.
   */
  lemma CopiesAgree(parse: string -> Option<Json>, raw: Json)
    ensures Normalise(TaskCopy, parse, raw).Returned? ==>
              Normalise(TaskCopy, parse, raw) == Normalise(MainCopy, parse, raw)
    ensures Normalise(MainCopy, parse, raw).Raised? ==> Normalise(TaskCopy, parse, raw).Raised?
    ensures Normalise(TaskCopy, parse, raw) != Normalise(MainCopy, parse, raw) <==>
              Normalise(MainCopy, parse, raw).Returned? && LacksLeadPlate(Normalise(MainCopy, parse, raw).result)
  {
    match ShapeOf(raw)
    case LegacyWrapper(text) =>
      if text.Str? && parse(text.s).Some? && parse(text.s).value.Obj? {
        var parsed := parse(text.s).value.fields;
        ResultsAgree(if "results" in parsed then parsed["results"] else Arr([]));
      }
    case DirectList(results) => ResultsAgree(results);
    case Unrecognised =>
  }

  lemma ResultsAgree(results: Json)
    ensures FromResults(TaskCopy, results).Returned? ==> FromResults(TaskCopy, results) == FromResults(MainCopy, results)
    ensures FromResults(MainCopy, results).Raised? ==> FromResults(TaskCopy, results).Raised?
    ensures FromResults(TaskCopy, results) != FromResults(MainCopy, results) <==>
              FromResults(MainCopy, results).Returned? && LacksLeadPlate(FromResults(MainCopy, results).result)
  {
  }

  /**
   * Normalisation is idempotent: a canonical value, handed back as a dict,
   * normalises to itself (for task.py unless its lead plate is missing).
   */
  lemma NormaliseIdempotent(copy: Copy, parse: string -> Option<Json>, c: Canonical)
    requires WellFormed(c)
    requires copy == TaskCopy ==> !LacksLeadPlate(c)
    ensures Normalise(copy, parse, AsJson(c)) == Returned(c)
  {
    var m := map["placa" := c.placa, "results" := c.results];
    assert "resultado" !in m by {
      assert "resultado" != "placa" && "resultado" != "results" by {
        assert |"resultado"| == 9 && |"placa"| == 5 && |"results"| == 7;
      }
    }
    assert ShapeOf(AsJson(c)) == DirectList(c.results);
  }

  /** Normalising the normaliser's own output gives it back. */
  lemma RenormaliseIsIdentity(copy: Copy, parse: string -> Option<Json>, raw: Json)
    requires Normalise(copy, parse, raw).Returned?
    ensures Normalise(copy, parse, AsJson(Normalise(copy, parse, raw).result)) == Normalise(copy, parse, raw)
  {
    var c := Normalise(copy, parse, raw).result;
    if copy == TaskCopy {
      CopiesAgree(parse, raw);
    }
    NormaliseIdempotent(copy, parse, c);
  }
}
