/**
 * The OCR fallback chain: four attempts (backend x category hint) in a fixed
 * order, stopping at the first whose normalised result is non-empty.
 * main.py (`chamar_ocr` and the loop in `processar_placa`) and
 * app/services/task.py (nested `chamar_ocr` and the loop in
 * `process_plate_image_task`) differ in how a failed attempt is absorbed.
 */
module OcrChain {
  import opened Options
  import opened PyValues
  import opened Seqs
  import opened OcrNormalise

  datatype Backend = EzOcr | Ocr

  /** One OCR call: the backend's URL and the `categoria` argument passed to `chamar_ocr`. */
  datatype Request = Request(backend: Backend, categoria: Json)

  /** A backend's answer: none (timeout, connection refused) or a status with a body that may not be JSON. */
  datatype OcrReply = Unreachable | Answered(status: int, body: Option<Json>)

  /** The reply to the `i`-th call of the chain, which carried request `r`. */
  type Oracle = (nat, Request) -> OcrReply

  /** `tentativa_urls`: both backends with the detector's class hint, then both without. */
  function Attempts(classe: Json): (a: seq<Request>)
    ensures |a| == 4
    ensures a[0].backend == EzOcr && a[1].backend == Ocr && a[2].backend == EzOcr && a[3].backend == Ocr
    ensures a[0].categoria == classe && a[1].categoria == classe
    ensures a[2].categoria == Null && a[3].categoria == Null
  {
    [Request(EzOcr, classe), Request(Ocr, classe), Request(EzOcr, Null), Request(Ocr, Null)]
  }

  /** `{"categoria": categoria} if categoria else {}`: the form fields sent with the image. */
  function FormData(r: Request): (d: map<string, Json>)
    ensures "categoria" in d <==> Truthy(r.categoria)
    ensures "categoria" in d ==> d["categoria"] == r.categoria
  {
    if Truthy(r.categoria) then map["categoria" := r.categoria] else map[]
  }

  /**
   * main.py's `chamar_ocr`: a status other than 200, a body that is not JSON or
   * a normaliser exception all become a RuntimeError (`Raised`).
   */
  function CallMain(parse: string -> Option<Json>, reply: OcrReply): (o: Outcome)
    ensures o.Returned? ==> WellFormed(o.result)
    ensures o.Returned? ==> reply.Answered? && reply.status == 200 && reply.body.Some?
    ensures reply.Answered? && reply.status == 200 && reply.body.Some? ==> o == Normalise(MainCopy, parse, reply.body.value)
  {
    match reply
    case Unreachable => Raised
    case Answered(status, body) =>
      if status != 200 || body.None? then Raised
      else Normalise(MainCopy, parse, body.value)
  }

  /**
   * task.py's `chamar_ocr`: every failure (no answer, an error status, a body
   * that is not JSON, a normaliser exception) becomes the empty result.
   */
  function CallTask(parse: string -> Option<Json>, reply: OcrReply): (c: Canonical)
    ensures WellFormed(c)
    ensures reply.Unreachable? || !HttpOk(reply.status) || reply.body.None? ==> c == Empty
    ensures c != Empty ==> Normalise(TaskCopy, parse, reply.body.value) == Returned(c)
    ensures reply.Answered? && HttpOk(reply.status) && reply.body.Some? ==>
              (Normalise(TaskCopy, parse, reply.body.value).Returned? ==> c == Normalise(TaskCopy, parse, reply.body.value).result) &&
              (Normalise(TaskCopy, parse, reply.body.value).Raised? ==> c == Empty)
  {
    match reply
    case Unreachable => Empty
    case Answered(status, body) =>
      if !HttpOk(status) || body.None? then Empty
      else match Normalise(TaskCopy, parse, body.value)
        case Returned(c) => c
        case Raised => Empty
  }

  /** The outcomes of the four main.py calls, in chain order. */
  function OutcomesMain(parse: string -> Option<Json>, answer: Oracle, classe: Json): (outs: seq<Outcome>)
    ensures |outs| == 4
    ensures forall i :: 0 <= i < 4 ==> outs[i] == CallMain(parse, answer(i, Attempts(classe)[i]))
  {
    var a := Attempts(classe);
    seq(4, (i: int) requires 0 <= i < 4 => CallMain(parse, answer(i, a[i])))
  }

  /** The outcomes of the four task.py calls, in chain order; they always return. */
  function OutcomesTask(parse: string -> Option<Json>, answer: Oracle, classe: Json): (outs: seq<Outcome>)
    ensures |outs| == 4
    ensures forall i :: 0 <= i < 4 ==> outs[i] == Returned(CallTask(parse, answer(i, Attempts(classe)[i])))
  {
    var a := Attempts(classe);
    seq(4, (i: int) requires 0 <= i < 4 => Returned(CallTask(parse, answer(i, a[i]))))
  }

  /** An attempt that ends the chain. */
  predicate IsHit(o: Outcome) {
    o.Returned? && NonEmpty(o.result)
  }

  /** The result of the first attempt that ends the chain, if any does. */
  function Winner(outs: seq<Outcome>): (w: Option<Canonical>)
    ensures w.Some? <==> exists i :: 0 <= i < |outs| && IsHit(outs[i])
    ensures w.Some? ==> NonEmpty(w.value)
    ensures w.Some? ==> exists k :: 0 <= k < |outs| && IsHit(outs[k]) && w.value == outs[k].result &&
                                   forall j :: 0 <= j < k ==> !IsHit(outs[j])
  {
    var k := FirstWhere(outs, IsHit);
    if k < |outs| then Some(outs[k].result) else None
  }

  /**
   * The loop of main.py's `processar_placa`: a failed attempt is skipped
   * (`continue`) and leaves `raw_result` as it was.
   */
  method RunChainMain(parse: string -> Option<Json>, answer: Oracle, classe: Json) returns (raw: Canonical)
    ensures var outs := OutcomesMain(parse, answer, classe);
            Winner(outs).Some? ==> raw == Winner(outs).value
    ensures var outs := OutcomesMain(parse, answer, classe);
            Winner(outs).None? ==>
              !NonEmpty(raw) && WellFormed(raw) &&
              (raw == Empty || exists j :: 0 <= j < 4 && outs[j] == Returned(raw))
  {
    var attempts := Attempts(classe);
    ghost var outs := OutcomesMain(parse, answer, classe);
    raw := Empty;
    var i := 0;
    while i < |attempts|
      invariant 0 <= i <= 4
      invariant forall j :: 0 <= j < i ==> !IsHit(outs[j])
      invariant !NonEmpty(raw) && WellFormed(raw)
      invariant raw == Empty || exists j :: 0 <= j < i && outs[j] == Returned(raw)
    {
      var outcome := CallMain(parse, answer(i, attempts[i]));
      if outcome.Returned? {
        raw := outcome.result;
        if NonEmpty(raw) {
          FirstWhereIs(outs, IsHit, i);
          break;
        }
      }
      i := i + 1;
    }
  }

  /**
   * The loop of task.py's `process_plate_image_task`, with the check after it
   * that replaces an empty result by exactly `{"placa": None, "results": []}`.
   */
  method RunChainTask(parse: string -> Option<Json>, answer: Oracle, classe: Json) returns (raw: Canonical)
    ensures var outs := OutcomesTask(parse, answer, classe);
            raw == if Winner(outs).Some? then Winner(outs).value else Empty
    ensures WellFormed(raw)
  {
    var attempts := Attempts(classe);
    ghost var outs := OutcomesTask(parse, answer, classe);
    raw := Empty;
    var i := 0;
    while i < |attempts|
      invariant 0 <= i <= 4
      invariant forall j :: 0 <= j < i ==> !IsHit(outs[j])
      invariant WellFormed(raw)
      invariant i > 0 ==> raw == outs[i - 1].result
    {
      raw := CallTask(parse, answer(i, attempts[i]));
      if NonEmpty(raw) {
        FirstWhereIs(outs, IsHit, i);
        break;
      }
      i := i + 1;
    }
    if !NonEmpty(raw) {
      raw := Empty;
    }
  }

  // ---------------------------------------------------------------------
  // Properties of the chain
  // ---------------------------------------------------------------------

  /**
   * Priority: once an attempt ends the chain, what the later attempts would
   * have returned does not matter.
   */
  lemma {:induction false} WinnerIgnoresLaterAttempts(outs1: seq<Outcome>, outs2: seq<Outcome>, k: nat)
    requires k < |outs1| && k < |outs2|
    requires outs1[..k + 1] == outs2[..k + 1]
    requires IsHit(outs1[k])
    ensures Winner(outs1) == Winner(outs2)
  {
    var k1 := FirstWhere(outs1, IsHit);
    assert k1 <= k;
    assert forall j :: 0 <= j <= k ==> outs1[j] == outs2[j] by {
      forall j | 0 <= j <= k ensures outs1[j] == outs2[j] {
        assert outs1[..k + 1][j] == outs2[..k + 1][j];
      }
    }
    FirstWhereIs(outs2, IsHit, k1);
  }

  /** If ezOCR with the class hint reads a plate, the main.py chain returns exactly that reading. */
  lemma FirstAttemptWinsMain(parse: string -> Option<Json>, answer: Oracle, classe: Json)
    requires IsHit(CallMain(parse, answer(0, Request(EzOcr, classe))))
    ensures Winner(OutcomesMain(parse, answer, classe)) == Some(CallMain(parse, answer(0, Request(EzOcr, classe))).result)
  {
    FirstWhereIs(OutcomesMain(parse, answer, classe), IsHit, 0);
  }

  /**
   * A 200 reply `{"results": [item, ...]}` whose first item is a dict reads
   * something: main.py's chain stops at it, with that list as `results`.
   */
  lemma DirectReplyEndsChainMain(parse: string -> Option<Json>, m: map<string, Json>, xs: seq<Json>)
    requires "resultado" !in m && "results" in m && m["results"] == Arr(xs)
    requires xs != [] && xs[0].Obj?
    ensures IsHit(CallMain(parse, Answered(200, Some(Obj(m)))))
    ensures CallMain(parse, Answered(200, Some(Obj(m)))).result == Canonical(Get(xs[0].fields, "plate"), Arr(xs))
  {
    DirectListKept(MainCopy, parse, m, xs);
  }

  /** The same for task.py. */
  lemma FirstAttemptWinsTask(parse: string -> Option<Json>, answer: Oracle, classe: Json)
    requires NonEmpty(CallTask(parse, answer(0, Request(EzOcr, classe))))
    ensures Winner(OutcomesTask(parse, answer, classe)) == Some(CallTask(parse, answer(0, Request(EzOcr, classe))))
  {
    FirstWhereIs(OutcomesTask(parse, answer, classe), IsHit, 0);
  }

  /** A failed attempt never ends the chain: main.py moves on to the next one. */
  lemma FailedAttemptIsSkipped(outs: seq<Outcome>, k: nat)
    requires k < |outs| && outs[k] == Raised
    ensures Winner(outs) == Winner(outs[..k] + outs[k + 1..])
  {
    var rest := outs[..k] + outs[k + 1..];
    var w := FirstWhere(outs, IsHit);
    assert forall j :: 0 <= j < k ==> rest[j] == outs[j];
    assert forall j :: k <= j < |rest| ==> rest[j] == outs[j + 1];
    if w < k {
      FirstWhereIs(rest, IsHit, w);
    } else {
      assert w != k;
      FirstWhereIs(rest, IsHit, w - 1);
    }
  }

  /** When every backend answers with an error status, task.py's chain yields the empty result. */
  lemma AllErrorStatusesGiveEmptyTask(parse: string -> Option<Json>, answer: Oracle, classe: Json)
    requires forall i :: 0 <= i < 4 ==>
               answer(i, Attempts(classe)[i]).Answered? && !HttpOk(answer(i, Attempts(classe)[i]).status)
    ensures Winner(OutcomesTask(parse, answer, classe)).None?
  {
    var outs := OutcomesTask(parse, answer, classe);
    assert forall i :: 0 <= i < 4 ==> outs[i] == Returned(Empty);
  }

  /** When no call to a main.py backend gets a 200 reply, the chain finds nothing. */
  lemma NoSuccessfulReplyGivesNothingMain(parse: string -> Option<Json>, answer: Oracle, classe: Json)
    requires forall i :: 0 <= i < 4 ==>
               answer(i, Attempts(classe)[i]).Unreachable? || answer(i, Attempts(classe)[i]).status != 200
    ensures Winner(OutcomesMain(parse, answer, classe)).None?
  {
    var outs := OutcomesMain(parse, answer, classe);
    assert forall i :: 0 <= i < 4 ==> outs[i] == Raised;
  }

  /** A falsy class hint sends no `categoria`: the hinted and unhinted calls to a backend send the same form data. */
  lemma FalsyHintSendsNoCategory(classe: Json)
    requires !Truthy(classe)
    ensures forall i :: 0 <= i < 4 ==> FormData(Attempts(classe)[i]) == map[]
  {
  }
}
